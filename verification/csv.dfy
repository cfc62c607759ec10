/** The in-memory CSV reader: a header line, then one record per non-blank
    data line, every field comma-split and whitespace-stripped, with a check
    of the header against the expected columns and of every row's length
    against the header's.
 */
module Csv {
  import opened Results
  import opened Text
  import opened Builds

  /** One data row: column header -> field. */
  type Record = map<string, string>

  datatype CsvError =
    | HeaderMismatch(header: seq<string>, expected: seq<string>)
    | RowLengthMismatch(row: seq<string>, header: seq<string>)

  /** The fields of one line: the stripped line split on commas, each piece
      stripped. */
  function Fields(line: string): (r: seq<string>)
    ensures |r| >= 1
  {
    StripAll(Split(Strip(line), ','))
  }

  predicate IsBlank(line: string) {
    Strip(line) == ""
  }

  /** What the reader sees in one data line: nothing for a blank line,
      otherwise its fields. */
  function ScanLine(line: string): Option<seq<string>> {
    if IsBlank(line) then None else Some(Fields(line))
  }

  function ScanLines(lines: seq<string>): (r: seq<Option<seq<string>>>)
    ensures |r| == |lines| && forall i :: 0 <= i < |lines| ==> r[i] == ScanLine(lines[i])
  {
    seq(|lines|, i requires 0 <= i < |lines| => ScanLine(lines[i]))
  }

  /** The fields of the non-blank lines, in their order. */
  function Present(scanned: seq<Option<seq<string>>>): (r: seq<seq<string>>)
    ensures |r| <= |scanned|
    ensures forall fs :: fs in r <==> Some(fs) in scanned
  {
    if |scanned| == 0 then []
    else
      var rest := Present(scanned[1..]);
      assert forall x :: x in scanned <==> x == scanned[0] || x in scanned[1..];
      if scanned[0].None? then rest else [scanned[0].value] + rest
  }

  /** Filtering distributes over concatenation, so `Present` keeps the
      lines' order. */
  lemma {:induction false} PresentConcat(a: seq<Option<seq<string>>>, b: seq<Option<seq<string>>>)
    ensures Present(a + b) == Present(a) + Present(b)
    decreases |a|
  {
    if |a| > 0 {
      assert (a + b)[1..] == a[1..] + b;
      PresentConcat(a[1..], b);
    } else {
      assert a + b == b;
    }
  }

  /** The header passes when no columns are expected (an empty list counts as
      none) or when it is exactly the expected columns, position by position. */
  predicate HeaderAccepted(header: seq<string>, expected: Option<seq<string>>) {
    expected.None? || |expected.value| == 0 || header == expected.value
  }

  /** The record of a row: each header maps to the field in its column; when
      a header repeats, the later column wins. */
  function RowDict(header: seq<string>, fields: seq<string>): (r: Record)
    requires |header| == |fields|
    ensures forall h :: h in r <==> h in header
    decreases |header|
  {
    if |header| == 0 then map[]
    else
      var n := |header| - 1;
      assert header == header[..n] + [header[n]];
      RowDict(header[..n], fields[..n])[header[n] := fields[n]]
  }

  /** Each header maps to the field in its column, unless a later column
      has the same header. */
  lemma {:induction false} RowDictAt(header: seq<string>, fields: seq<string>, i: nat)
    requires |header| == |fields| && i < |header|
    requires forall j :: i < j < |header| ==> header[j] != header[i]
    ensures RowDict(header, fields)[header[i]] == fields[i]
    decreases |header|
  {
    var n := |header| - 1;
    if i < n {
      assert header[..n][i] == header[i] && fields[..n][i] == fields[i];
      assert forall j :: i < j < n ==> header[..n][j] == header[j];
      RowDictAt(header[..n], fields[..n], i);
    }
  }

  /** Every non-blank line has as many fields as the header. */
  predicate RowsFit(header: seq<string>, scanned: seq<Option<seq<string>>>) {
    forall i :: 0 <= i < |scanned| && scanned[i].Some? ==> |scanned[i].value| == |header|
  }

  lemma RowsFitCons(header: seq<string>, x: Option<seq<string>>, rest: seq<Option<seq<string>>>)
    ensures RowsFit(header, [x] + rest) <==> (x.Some? ==> |x.value| == |header|) && RowsFit(header, rest)
  {
    var s := [x] + rest;
    assert forall i :: 0 < i < |s| ==> s[i] == rest[i - 1];
    if (x.Some? ==> |x.value| == |header|) && RowsFit(header, rest) {
      forall i | 0 <= i < |s| && s[i].Some?
        ensures |s[i].value| == |header|
      {
        if i > 0 {
          assert s[i] == rest[i - 1];
        }
      }
    }
    if RowsFit(header, s) {
      assert s[0] == x;
      forall i | 0 <= i < |rest| && rest[i].Some?
        ensures |rest[i].value| == |header|
      {
        assert s[i + 1] == rest[i];
      }
    }
  }

  /** The records of the data lines: blank lines are skipped, and the first
      non-blank line whose field count differs from the header's fails. */
  function ParseRows(header: seq<string>, scanned: seq<Option<seq<string>>>): (r: Result<seq<Record>, CsvError>)
    ensures r.Success? <==> RowsFit(header, scanned)
    ensures r.Success? ==>
      var kept := Present(scanned);
      && |r.value| == |kept|
      && forall i :: 0 <= i < |kept| ==> |kept[i]| == |header| && r.value[i] == RowDict(header, kept[i])
    ensures r.Failure? ==> exists i ::
      && 0 <= i < |scanned|
      && scanned[i].Some?
      && |scanned[i].value| != |header|
      && RowsFit(header, scanned[..i])
      && r.error == RowLengthMismatch(scanned[i].value, header)
  {
    if |scanned| == 0 then Success([])
    else
      var x, rest := scanned[0], scanned[1..];
      assert scanned == [x] + rest;
      RowsFitCons(header, x, rest);
      var r := ParseRows(header, rest);
      if x.Some? && |x.value| != |header| then
        assert RowsFit(header, scanned[..0]);
        Failure(RowLengthMismatch(x.value, header))
      else if r.Failure? then
        var i :| 0 <= i < |rest| && rest[i].Some? && |rest[i].value| != |header|
          && RowsFit(header, rest[..i]) && r.error == RowLengthMismatch(rest[i].value, header);
        FirstBadRowShift(header, x, rest, i);
        Failure(r.error)
      else if x.None? then r
      else
        RecordsCons(header, x.value, rest, r.value);
        Success([RowDict(header, x.value)] + r.value)
  }

  /** A blank line at the end of the data changes nothing. */
  lemma {:induction false} ParseRowsBlankTail(header: seq<string>, scanned: seq<Option<seq<string>>>)
    ensures ParseRows(header, scanned + [None]) == ParseRows(header, scanned)
    decreases |scanned|
  {
    var s := scanned + [None];
    if |scanned| == 0 {
      assert s == [None] && s[1..] == [];
    } else {
      assert s[0] == scanned[0];
      assert s[1..] == scanned[1..] + [None];
      ParseRowsBlankTail(header, scanned[1..]);
    }
  }

  /** A good non-blank row in front adds its record in front. */
  lemma RecordsCons(header: seq<string>, fs: seq<string>, rest: seq<Option<seq<string>>>, recs: seq<Record>)
    requires |fs| == |header|
    requires var kept := Present(rest);
      && |recs| == |kept|
      && forall i :: 0 <= i < |kept| ==> |kept[i]| == |header| && recs[i] == RowDict(header, kept[i])
    ensures var kept := Present([Some(fs)] + rest);
      var r := [RowDict(header, fs)] + recs;
      && |r| == |kept|
      && forall i :: 0 <= i < |kept| ==> |kept[i]| == |header| && r[i] == RowDict(header, kept[i])
  {
    PresentConsSome(fs, rest);
    RecordPairsCons(header, fs, Present(rest), recs);
  }

  lemma PresentConsSome(fs: seq<string>, rest: seq<Option<seq<string>>>)
    ensures Present([Some(fs)] + rest) == [fs] + Present(rest)
  {
    var s := [Some(fs)] + rest;
    assert s[0] == Some(fs) && s[1..] == rest;
  }

  lemma RecordPairsCons(header: seq<string>, fs: seq<string>, kept: seq<seq<string>>, recs: seq<Record>)
    requires |fs| == |header|
    requires |recs| == |kept|
    requires forall i :: 0 <= i < |kept| ==> |kept[i]| == |header| && recs[i] == RowDict(header, kept[i])
    ensures var k, r := [fs] + kept, [RowDict(header, fs)] + recs;
      && |r| == |k|
      && forall i :: 0 <= i < |k| ==> |k[i]| == |header| && r[i] == RowDict(header, k[i])
  {
    var k, r := [fs] + kept, [RowDict(header, fs)] + recs;
    forall i | 0 <= i < |k|
      ensures |k[i]| == |header| && r[i] == RowDict(header, k[i])
    {
      if i == 0 {
        assert k[0] == fs && r[0] == RowDict(header, fs);
      } else {
        var j := i - 1;
        assert |kept[j]| == |header| && recs[j] == RowDict(header, kept[j]);
        assert k[i] == kept[j];
        assert r[i] == recs[j];
      }
    }
  }

  /** A good row in front moves the first bad row one place on. */
  lemma FirstBadRowShift(header: seq<string>, x: Option<seq<string>>, rest: seq<Option<seq<string>>>, i: nat)
    requires x.Some? ==> |x.value| == |header|
    requires i < |rest| && RowsFit(header, rest[..i])
    ensures ([x] + rest)[i + 1] == rest[i]
    ensures RowsFit(header, ([x] + rest)[..i + 1])
  {
    assert ([x] + rest)[..i + 1] == [x] + rest[..i];
    RowsFitCons(header, x, rest[..i]);
  }

  /** The lines of a text. */
  function Lines(text: string): (r: seq<string>)
    ensures |r| >= 1
  {
    Split(text, '\n')
  }

  function Header(text: string): seq<string> {
    Fields(Lines(text)[0])
  }

  /** Python's `readCsvFileIntoListOfDicts` on the file's text: the header is
      the first line; a header that does not match the expected columns
      fails before any row is read; then every non-blank data line becomes
      one record, in order, and a row of the wrong length fails. */
  function ReadCsvFileIntoListOfDicts(text: string, expected: Option<seq<string>>): (r: Result<seq<Record>, CsvError>)
    ensures r.Success? <==> HeaderAccepted(Header(text), expected) && RowsFit(Header(text), ScanLines(Lines(text)[1..]))
    ensures !HeaderAccepted(Header(text), expected) ==> r == Failure(HeaderMismatch(Header(text), expected.value))
    ensures HeaderAccepted(Header(text), expected) ==> r == ParseRows(Header(text), ScanLines(Lines(text)[1..]))
  {
    var lines := Lines(text);
    var header := Fields(lines[0]);
    if !HeaderAccepted(header, expected) then Failure(HeaderMismatch(header, expected.value))
    else ParseRows(header, ScanLines(lines[1..]))
  }

  /** A newline at the end of the file, and so any number of trailing
      blank lines, changes neither the records nor the error. */
  lemma TrailingNewline(text: string, expected: Option<seq<string>>)
    ensures ReadCsvFileIntoListOfDicts(text + "\n", expected) == ReadCsvFileIntoListOfDicts(text, expected)
  {
    var lines := Lines(text);
    SplitTrailingSeparator(text, '\n');
    assert Lines(text + "\n") == lines + [""];
    assert (lines + [""])[0] == lines[0];
    assert (lines + [""])[1..] == lines[1..] + [""];
    assert Strip("") == "";
    assert ScanLines(lines[1..] + [""]) == ScanLines(lines[1..]) + [None];
    ParseRowsBlankTail(Header(text), ScanLines(lines[1..]));
  }

  /** The expected-builds file's columns. */
  const ExpectedBuildsColumns: seq<string> := ["group", "site", "buildname"]

  /** Python's `getExpectedBuildsListfromCsvFile` on the file's text: the
      records of a CSV whose header must be `group, site, buildname`, each
      given as its identity tuple. */
  function GetExpectedBuildsListfromCsvFile(text: string): (r: Result<seq<BuildKey>, CsvError>)
    ensures r.Success? <==> Header(text) == ExpectedBuildsColumns && RowsFit(Header(text), ScanLines(Lines(text)[1..]))
    ensures r.Success? ==>
      var kept := Present(ScanLines(Lines(text)[1..]));
      && |r.value| == |kept|
      && forall i :: 0 <= i < |kept| ==> kept[i] == [r.value[i].group, r.value[i].site, r.value[i].buildname]
  {
    var read := ReadCsvFileIntoListOfDicts(text, Some(ExpectedBuildsColumns));
    ExpectedRead(text);
    if read.Failure? then Failure(read.error)
    else
      var records := read.value;
      var keys := KeysOfRecords(records);
      ExpectedKeys(Present(ScanLines(Lines(text)[1..])), records, keys);
      Success(keys)
  }

  /** What reading a file under the expected-builds header gives. */
  lemma ExpectedRead(text: string)
    ensures var r := ReadCsvFileIntoListOfDicts(text, Some(ExpectedBuildsColumns));
      && (r.Success? <==> Header(text) == ExpectedBuildsColumns && RowsFit(Header(text), ScanLines(Lines(text)[1..])))
      && (r.Success? ==>
           var kept := Present(ScanLines(Lines(text)[1..]));
           && |r.value| == |kept|
           && forall i :: 0 <= i < |kept| ==>
                |kept[i]| == |ExpectedBuildsColumns| && r.value[i] == RowDict(ExpectedBuildsColumns, kept[i]))
  {
    assert |ExpectedBuildsColumns| == 3;
  }

  /** The keys of the records of rows read under the expected-builds header
      are those rows. */
  lemma ExpectedKeys(kept: seq<seq<string>>, records: seq<Record>, keys: seq<BuildKey>)
    requires |records| == |kept| == |keys|
    requires forall i :: 0 <= i < |kept| ==>
      |kept[i]| == |ExpectedBuildsColumns| && records[i] == RowDict(ExpectedBuildsColumns, kept[i])
    requires forall i :: 0 <= i < |keys| ==> keys[i] == KeyOfRecord(records[i])
    ensures forall i :: 0 <= i < |kept| ==> kept[i] == [keys[i].group, keys[i].site, keys[i].buildname]
  {
    forall i | 0 <= i < |kept|
      ensures kept[i] == [keys[i].group, keys[i].site, keys[i].buildname]
    {
      ExpectedBuildRecord(kept[i]);
    }
  }

  function KeysOfRecords(records: seq<Record>): (keys: seq<BuildKey>)
    ensures |keys| == |records| && forall i :: 0 <= i < |records| ==> keys[i] == KeyOfRecord(records[i])
  {
    if |records| == 0 then [] else [KeyOfRecord(records[0])] + KeysOfRecords(records[1..])
  }

  /** The identity tuple a record of the expected-builds file names. */
  function KeyOfRecord(rec: Record): BuildKey {
    BuildKey(
      if "group" in rec then rec["group"] else "",
      if "site" in rec then rec["site"] else "",
      if "buildname" in rec then rec["buildname"] else "")
  }

  lemma ExpectedBuildRecord(fs: seq<string>)
    requires |fs| == 3
    ensures var k := KeyOfRecord(RowDict(ExpectedBuildsColumns, fs)); fs == [k.group, k.site, k.buildname]
  {
    var h := ExpectedBuildsColumns;
    assert h[0] == "group" && h[1] == "site" && h[2] == "buildname";
    RowDictAt(h, fs, 0);
    RowDictAt(h, fs, 1);
    RowDictAt(h, fs, 2);
    var k := KeyOfRecord(RowDict(h, fs));
    assert fs == [k.group, k.site, k.buildname];
  }

  // Writing a table back out, the partner of reading one.

  /** A field the writer can emit unchanged: non-empty, not padded with
      whitespace, holding no comma and no line break. */
  predicate CleanField(f: string) {
    |f| > 0 && !IsSpace(f[0]) && !IsSpace(f[|f| - 1]) && ',' !in f && '\n' !in f
  }

  predicate CleanRow(fs: seq<string>) {
    |fs| >= 1 && forall i :: 0 <= i < |fs| ==> CleanField(fs[i])
  }

  /** The blanks a writer puts after each comma (one in the files the unit
      tests write, none in a plain CSV). */
  predicate Padding(pad: string) {
    forall i :: 0 <= i < |pad| ==> pad[i] == ' '
  }

  /** A CSV text: the header line and one line per row, fields joined by a
      comma and `pad`, lines joined by line breaks. */
  function RenderCsv(header: seq<string>, rows: seq<seq<string>>, pad: string): string {
    Join([Join(header, "," + pad)] + RenderLines(rows, pad), "\n")
  }

  function RenderLines(rows: seq<seq<string>>, pad: string): (r: seq<string>)
    ensures |r| == |rows| && forall i :: 0 <= i < |rows| ==> r[i] == Join(rows[i], "," + pad)
  {
    if |rows| == 0 then [] else [Join(rows[0], "," + pad)] + RenderLines(rows[1..], pad)
  }

  /** A joined line starts with the first part's first character, ends with
      the last part's last character, and holds a character only if a part
      or the separator does. */
  lemma {:induction false} JoinEnds(parts: seq<string>, sep: string, c: char)
    requires |parts| >= 1
    requires c !in sep && forall i :: 0 <= i < |parts| ==> |parts[i]| > 0 && c !in parts[i]
    ensures var s := Join(parts, sep);
      && |s| > 0 && s[0] == parts[0][0] && s[|s| - 1] == parts[|parts| - 1][|parts[|parts| - 1]| - 1]
      && c !in s
    decreases |parts|
  {
    if |parts| > 1 {
      JoinEnds(parts[1..], sep, c);
    }
  }

  lemma CleanFieldStrips(f: string)
    requires CleanField(f)
    ensures Strip(f) == f
  {
    StripClean(f);
  }

  /** Blanks in front of a clean field are stripped off again. */
  lemma PaddedFieldStrips(pad: string, f: string)
    requires Padding(pad) && CleanField(f)
    ensures Strip(pad + f) == f
  {
    StripAfterBlanks(pad, f);
    CleanFieldStrips(f);
  }

  /** Each field behind its blanks. */
  function Padded(fs: seq<string>, pad: string): (r: seq<string>)
    ensures |r| == |fs| && forall i :: 0 <= i < |fs| ==> r[i] == pad + fs[i]
  {
    if |fs| == 0 then [] else [pad + fs[0]] + Padded(fs[1..], pad)
  }

  /** Joining padded fields on bare commas is padding the join on padded commas. */
  lemma {:induction false} JoinPadded(fs: seq<string>, pad: string)
    requires |fs| >= 1
    ensures Join(Padded(fs, pad), ",") == pad + Join(fs, "," + pad)
    decreases |fs|
  {
    var p := Padded(fs, pad);
    if |fs| > 1 {
      JoinPadded(fs[1..], pad);
      assert p[1..] == Padded(fs[1..], pad);
      var t := Join(fs[1..], "," + pad);
      assert (pad + fs[0]) + "," + (pad + t) == pad + (fs[0] + ("," + pad) + t);
    }
  }

  /** The pieces between the commas of a written row: the first field, then
      every later one behind its blanks. */
  lemma RowPieces(fs: seq<string>, pad: string)
    requires |fs| >= 1
    ensures Join([fs[0]] + Padded(fs[1..], pad), ",") == Join(fs, "," + pad)
  {
    var pieces := [fs[0]] + Padded(fs[1..], pad);
    if |fs| > 1 {
      JoinPadded(fs[1..], pad);
      assert pieces[1..] == Padded(fs[1..], pad);
      var t := Join(fs[1..], "," + pad);
      assert Join(pieces, ",") == fs[0] + "," + (pad + t);
      Regroup(fs[0], ",", pad, t);
    } else {
      assert pieces == fs;
    }
  }

  lemma Regroup<T>(a: seq<T>, b: seq<T>, c: seq<T>, d: seq<T>)
    ensures a + b + (c + d) == a + (b + c) + d
  {
  }

  /** A clean row's line is a single, non-blank, unpadded line. */
  lemma RenderedRowClean(fs: seq<string>, pad: string)
    requires CleanRow(fs) && Padding(pad)
    ensures var line := Join(fs, "," + pad);
      '\n' !in line && Strip(line) == line && |line| > 0
  {
    assert '\n' !in "," + pad by {
      forall i | 0 <= i < |"," + pad|
        ensures ("," + pad)[i] != '\n'
      {
        if i > 0 {
          assert ("," + pad)[i] == pad[i - 1];
        }
      }
    }
    JoinEnds(fs, "," + pad, '\n');
    StripClean(Join(fs, "," + pad));
  }

  /** Each piece between the commas of a written clean row strips back to its field. */
  lemma PiecesStrip(fs: seq<string>, pad: string)
    requires CleanRow(fs) && Padding(pad) && |fs| >= 1
    ensures var pieces := [fs[0]] + Padded(fs[1..], pad);
      forall i :: 0 <= i < |pieces| ==> ',' !in pieces[i] && Strip(pieces[i]) == fs[i]
  {
    var pieces := [fs[0]] + Padded(fs[1..], pad);
    assert ',' !in pad by {
      forall k | 0 <= k < |pad|
        ensures pad[k] != ','
      {
      }
    }
    forall i | 0 <= i < |pieces|
      ensures ',' !in pieces[i] && Strip(pieces[i]) == fs[i]
    {
      if i == 0 {
        CleanFieldStrips(fs[0]);
      } else {
        assert pieces[i] == pad + fs[i];
        PaddedFieldStrips(pad, fs[i]);
      }
    }
  }

  /** A clean row's line reads back as that row, whatever blanks follow its commas. */
  lemma FieldsOfRenderedRow(fs: seq<string>, pad: string)
    requires CleanRow(fs) && Padding(pad)
    ensures Fields(Join(fs, "," + pad)) == fs
    ensures '\n' !in Join(fs, "," + pad) && !IsBlank(Join(fs, "," + pad))
  {
    RenderedRowClean(fs, pad);
    RowPieces(fs, pad);
    PiecesStrip(fs, pad);
    SplitJoin([fs[0]] + Padded(fs[1..], pad), ',');
  }

  /** The text of a written table splits into the header line and the row
      lines. */
  lemma LinesOfRendered(header: seq<string>, rows: seq<seq<string>>, pad: string)
    requires CleanRow(header) && Padding(pad)
    requires forall i :: 0 <= i < |rows| ==> CleanRow(rows[i])
    ensures Lines(RenderCsv(header, rows, pad)) == [Join(header, "," + pad)] + RenderLines(rows, pad)
  {
    var lines := [Join(header, "," + pad)] + RenderLines(rows, pad);
    RenderedRowClean(header, pad);
    forall i | 0 <= i < |lines|
      ensures '\n' !in lines[i]
    {
      if i > 0 {
        RenderedRowClean(rows[i - 1], pad);
      }
    }
    SplitJoin(lines, '\n');
  }

  /** The row lines of a written table scan back as the rows. */
  lemma ScanRenderedRows(rows: seq<seq<string>>, pad: string)
    requires Padding(pad)
    requires forall i :: 0 <= i < |rows| ==> CleanRow(rows[i])
    ensures forall i :: 0 <= i < |rows| ==> ScanLines(RenderLines(rows, pad))[i] == Some(rows[i])
    ensures Present(ScanLines(RenderLines(rows, pad))) == rows
  {
    var scanned := ScanLines(RenderLines(rows, pad));
    forall i | 0 <= i < |rows|
      ensures scanned[i] == Some(rows[i])
    {
      FieldsOfRenderedRow(rows[i], pad);
    }
    AllPresent(scanned, rows);
  }

  /** Without blank lines nothing is dropped. */
  lemma {:induction false} AllPresent(scanned: seq<Option<seq<string>>>, rows: seq<seq<string>>)
    requires |scanned| == |rows| && forall i :: 0 <= i < |rows| ==> scanned[i] == Some(rows[i])
    ensures Present(scanned) == rows
    decreases |rows|
  {
    if |rows| > 0 {
      AllPresent(scanned[1..], rows[1..]);
    }
  }

  /** A written table is read as its header and its rows, all of them present. */
  lemma ReadRendered(header: seq<string>, rows: seq<seq<string>>, pad: string)
    requires CleanRow(header) && Padding(pad)
    requires forall i :: 0 <= i < |rows| ==> CleanRow(rows[i])
    ensures Header(RenderCsv(header, rows, pad)) == header
    ensures var scanned := ScanLines(Lines(RenderCsv(header, rows, pad))[1..]);
      && |scanned| == |rows|
      && forall i :: 0 <= i < |rows| ==> scanned[i] == Some(rows[i])
  {
    LinesOfRendered(header, rows, pad);
    FieldsOfRenderedRow(header, pad);
    assert Lines(RenderCsv(header, rows, pad))[1..] == RenderLines(rows, pad);
    ScanRenderedRows(rows, pad);
  }

  /** Rows that are all present fail on the first one of the wrong length. */
  lemma ParsePresentRows(header: seq<string>, rows: seq<seq<string>>, scanned: seq<Option<seq<string>>>)
    requires |scanned| == |rows| && forall i :: 0 <= i < |rows| ==> scanned[i] == Some(rows[i])
    ensures var r := ParseRows(header, scanned);
      && (r.Success? <==> forall i :: 0 <= i < |rows| ==> |rows[i]| == |header|)
      && (r.Failure? ==> exists i ::
           && 0 <= i < |rows|
           && |rows[i]| != |header|
           && (forall j :: 0 <= j < i ==> |rows[j]| == |header|)
           && r.error == RowLengthMismatch(rows[i], header))
  {
    var r := ParseRows(header, scanned);
    if r.Failure? {
      var i :| 0 <= i < |scanned| && scanned[i].Some? && |scanned[i].value| != |header|
        && RowsFit(header, scanned[..i]) && r.error == RowLengthMismatch(scanned[i].value, header);
      forall j | 0 <= j < i
        ensures |rows[j]| == |header|
      {
        assert scanned[..i][j] == scanned[j];
      }
    } else {
      forall i | 0 <= i < |rows|
        ensures |rows[i]| == |header|
      {
        assert scanned[i].Some?;
      }
    }
  }

  /** What reading a written table checks: the header first, then the length
      of every row, reporting the first row of the wrong length. */
  lemma ReadRenderedChecks(header: seq<string>, rows: seq<seq<string>>, expected: Option<seq<string>>, pad: string)
    requires CleanRow(header) && Padding(pad)
    requires forall i :: 0 <= i < |rows| ==> CleanRow(rows[i])
    ensures var r := ReadCsvFileIntoListOfDicts(RenderCsv(header, rows, pad), expected);
      && (!HeaderAccepted(header, expected) ==> r == Failure(HeaderMismatch(header, expected.value)))
      && (HeaderAccepted(header, expected) ==> (r.Success? <==> forall i :: 0 <= i < |rows| ==> |rows[i]| == |header|))
      && (HeaderAccepted(header, expected) && r.Failure? ==> exists i ::
           && 0 <= i < |rows|
           && |rows[i]| != |header|
           && (forall j :: 0 <= j < i ==> |rows[j]| == |header|)
           && r.error == RowLengthMismatch(rows[i], header))
  {
    ReadRendered(header, rows, pad);
    ParsePresentRows(header, rows, ScanLines(Lines(RenderCsv(header, rows, pad))[1..]));
  }

  /** Reading a written table gives back one record per row, in order, each
      mapping the header to that row's fields, whether or not the header is
      checked against itself. */
  lemma ReadRenderedCsv(header: seq<string>, rows: seq<seq<string>>, expected: Option<seq<string>>, pad: string)
    requires CleanRow(header) && Padding(pad)
    requires forall i :: 0 <= i < |rows| ==> CleanRow(rows[i]) && |rows[i]| == |header|
    requires expected.None? || expected.value == header
    ensures var r := ReadCsvFileIntoListOfDicts(RenderCsv(header, rows, pad), expected);
      && r.Success?
      && |r.value| == |rows|
      && forall i :: 0 <= i < |rows| ==> r.value[i] == RowDict(header, rows[i])
  {
    LinesOfRendered(header, rows, pad);
    FieldsOfRenderedRow(header, pad);
    assert Lines(RenderCsv(header, rows, pad))[1..] == RenderLines(rows, pad);
    ScanRenderedRows(rows, pad);
  }

  /** Reading a written expected-builds file gives the identity tuple of
      each row, in order. */
  lemma ExpectedBuildsOfRendered(rows: seq<seq<string>>, pad: string)
    requires Padding(pad)
    requires forall i :: 0 <= i < |rows| ==> CleanRow(rows[i]) && |rows[i]| == 3
    ensures var r := GetExpectedBuildsListfromCsvFile(RenderCsv(ExpectedBuildsColumns, rows, pad));
      && r.Success?
      && |r.value| == |rows|
      && forall i :: 0 <= i < |rows| ==> r.value[i] == BuildKey(rows[i][0], rows[i][1], rows[i][2])
  {
    var text := RenderCsv(ExpectedBuildsColumns, rows, pad);
    assert CleanField("group") && CleanField("site") && CleanField("buildname");
    ReadRendered(ExpectedBuildsColumns, rows, pad);
    AllPresent(ScanLines(Lines(text)[1..]), rows);
  }

  /** A newline at the end of an expected-builds file changes nothing. */
  lemma ExpectedTrailingNewline(text: string)
    ensures GetExpectedBuildsListfromCsvFile(text + "\n") == GetExpectedBuildsListfromCsvFile(text)
  {
    TrailingNewline(text, Some(ExpectedBuildsColumns));
  }
}
