# CDash query analysis core, modelled in Dafny

This project models the core of TriBITS' `CDashQueryAnalizeReport` module.
That module queries a CDash dashboard for one project and one testing day,
and reduces what it gets back to a pass/fail verdict and HTML tables. The
pieces modelled are:

- **Dates** (`dates.dfy`, module `Dates`): `validateYYYYMMDD` and the printed
  form of the validated date.
- **URLs** (`urls.dfy`, module `QueryUrls`): the four URL builders. Each one
  glues the base URL, a fixed path and `project=P&date=D&F`.
- **CSV** (`csv.dfy`, module `Csv`): `readCsvFileIntoListOfDicts` and
  `getExpectedBuildsListfromCsvFile` on the text of a file. A writer for
  clean tables is included as the reader's partner.
- **Build summaries** (`builds.dfy`, module `Builds`):
  - `collectCDashIndexBuildSummaryFields` and `getCDashIndexBuildsSummary`
    over a JSON-like payload;
  - `sorted_dict_str`, the deterministic rendering of a summary.
- **Lookup index** (`index.dfy`, module `BuildIndex`): `createBuildLookupDict`
  and `lookupBuildSummaryGivenLookupDict`. The index is a
  group → site → build-name map.
- **Missing-build matcher** (`matcher.dfy`, module `Matcher`):
  `getMissingExpectedBuildsList`.
- **Pass/fail engine** (`passfail.dfy`, module `PassFail`):
  - `cdashIndexBuildPasses` and `cdashIndexBuildsPass`;
  - `getCDashIndexBuildNames`;
  - the existence gate `doAllExpectedBuildsExist`;
  - `cdashIndexBuildsPassAndExpectedExist`;
  - `queryCDashAndDeterminePassFail`, run on an already fetched payload.
- **HTML table renderer** (`html.dfy`, module `HtmlTable`): `createHtmlTableStr`.

Shared definitions live in two more files:

- `results.dfy` (module `Results`): `Option`, and `Result` with the `:-`
  failure propagation.
- `text.dfy` (module `Text`): stripping, splitting and joining, decimal
  digits, quoting and lexicographic order.

The module's unit-test file pins the behaviour at literal values. The
lemmas in `unit_vectors.dfy` (module `UnitVectors`) restate those
expectations and prove them from the general contracts.

Python's exceptions become the `Failure` case of a `Result`, with an error
datatype that says what went wrong:

- `InvalidDateMessage` for dates;
- `HeaderMismatch` and `RowLengthMismatch` for CSV;
- `MissingKey`, `MalformedSection` and `MalformedPayload` for payloads;
- `MissingColumnKey` for HTML.

A summary is a typed record, `Builds.Build`. A section the dashboard did
not report is `None`, which is distinct from a section whose counters are
zero. `Builds.ToDict` gives the Python-dictionary shape of a summary.

## Model

| member | source | states |
|---|---|---|
| Dates.ValidateYYYYMMDD | test/ci_support/CDashQueryAnalizeReport_UnitTests.py:90-120 | every accepted string spells the date it yields: four-digit year, then month and day of one or two digits within range, separated by dashes. Anything else fails with the "should be YYYY-MM-DD" message naming the input. |
| Dates.ValidateAcceptsSpellings | test/ci_support/CDashQueryAnalizeReport_UnitTests.py:92-110 | the converse: every full or shortened spelling of a date in range validates back to that date. Together the two say the validator accepts exactly the spellings of valid dates. |
| Dates.DateStringRoundTrip | test/ci_support/CDashQueryAnalizeReport_UnitTests.py:92-110 | the printed form is 19 characters long, and its first ten characters, the zero-padded date, validate back to the same date |
| UnitVectors.DateVectors | test/ci_support/CDashQueryAnalizeReport_UnitTests.py:92-110 | "2015-12-21", "2015-12-01", "2015-12-1" and "2015-1-9" are accepted as the expected dates; the last prints as "2015-01-09 00:00:00" |
| UnitVectors.DateFailVectors | test/ci_support/CDashQueryAnalizeReport_UnitTests.py:112-120 | the empty string and "201512-21" are refused |
| QueryUrls.QueryStringRoundTrip | test/ci_support/CDashQueryAnalizeReport_UnitTests.py:314-340 | the query `project=P&date=D&F` decodes back to (P, D, F) whenever P and D hold no `&`; F passes through verbatim, its own `&`s included |
| QueryUrls.UnescapedFieldsAmbiguous | test/ci_support/CDashQueryAnalizeReport_UnitTests.py:314-319 | nothing is escaped, so an `&` inside the project name lets two different requests give the same query string |
| QueryUrls.CDashUrl | test/ci_support/CDashQueryAnalizeReport_UnitTests.py:314-340 | the URL starts with base + path + "?" and decodes back to the project, date and filter fields |
| QueryUrls.GetCDashIndexQueryUrl | test/ci_support/CDashQueryAnalizeReport_UnitTests.py:314-319 | the URL starts with base + "/api/v1/index.php?" and decodes back to its inputs |
| QueryUrls.GetCDashIndexBrowserUrl | test/ci_support/CDashQueryAnalizeReport_UnitTests.py:321-326 | the URL starts with base + "/index.php?" and decodes back to its inputs |
| QueryUrls.GetCDashQueryTestsQueryUrl | test/ci_support/CDashQueryAnalizeReport_UnitTests.py:328-333 | the URL starts with base + "/api/v1/queryTests.php?" and decodes back to its inputs |
| QueryUrls.GetCDashQueryTestsBrowserUrl | test/ci_support/CDashQueryAnalizeReport_UnitTests.py:335-340 | the URL starts with base + "/queryTests.php?" and decodes back to its inputs |
| UnitVectors.UrlVectors | test/ci_support/CDashQueryAnalizeReport_UnitTests.py:314-340 | the four URLs the tests expect for "site.com/cdash", "project-name", "2015-12-21" and "filtercount=1&morestuff" |
| Csv.ReadCsvFileIntoListOfDicts | test/ci_support/CDashQueryAnalizeReport_UnitTests.py:129-222 | the read succeeds exactly when the header is accepted and every non-blank data line has as many fields as the header. A rejected header fails first, carrying both column lists. Otherwise the result is that of the row parser. |
| Csv.ParseRows | test/ci_support/CDashQueryAnalizeReport_UnitTests.py:131-222 | blank lines are skipped; the records of the other lines come in order; the first line of the wrong length fails with that row and the header |
| Csv.PresentConcat | test/ci_support/CDashQueryAnalizeReport_UnitTests.py:131-165 | dropping blank lines distributes over concatenation, so the order of the lines is kept |
| Csv.RowDictAt | test/ci_support/CDashQueryAnalizeReport_UnitTests.py:131-165 | each column header maps to the field in its column (a later column with the same header wins) |
| Csv.TrailingNewline | test/ci_support/CDashQueryAnalizeReport_UnitTests.py:131-165 | a newline at the end of the file, and so any number of trailing blank lines, changes neither the records nor the error |
| Csv.ReadRenderedCsv | test/ci_support/CDashQueryAnalizeReport_UnitTests.py:131-165 | the round trip: a table of clean fields, written with any number of blanks after each comma and read back, gives one record per row, in order, each mapping the header to that row's fields |
| Csv.ReadRenderedChecks | test/ci_support/CDashQueryAnalizeReport_UnitTests.py:167-222 | reading a written table fails on a header that does not match the expected columns. Once the header is accepted, the read succeeds exactly when every row has the header's length, and otherwise fails on the first row that does not. |
| Csv.FieldsOfRenderedRow | test/ci_support/CDashQueryAnalizeReport_UnitTests.py:131-165 | a written row of clean fields reads back as exactly those fields, whatever blanks follow its commas |
| Csv.GetExpectedBuildsListfromCsvFile | test/ci_support/CDashQueryAnalizeReport_UnitTests.py:234-254 | succeeds exactly when the header is `group, site, buildname` and every row has three fields; the result is one identity tuple per non-blank row, in order, holding that row's fields |
| Csv.ExpectedBuildsOfRendered | test/ci_support/CDashQueryAnalizeReport_UnitTests.py:234-254 | a written expected-builds file reads back as the identity tuples of its rows, in order |
| Csv.ExpectedTrailingNewline | test/ci_support/CDashQueryAnalizeReport_UnitTests.py:234-254 | trailing newlines do not change the expected-builds list |
| UnitVectors.CsvTwoRowsVector | test/ci_support/CDashQueryAnalizeReport_UnitTests.py:131-165 | the tests' three-column, two-row file gives the two expected records, both with the expected columns given and without them |
| UnitVectors.CsvHeaderMismatchVectors | test/ci_support/CDashQueryAnalizeReport_UnitTests.py:167-199 | the header "wrong col, col_1, col_2" is refused against too few, too many and the right number of expected columns |
| UnitVectors.CsvWrongSecondColumnVector | test/ci_support/CDashQueryAnalizeReport_UnitTests.py:201-210 | a wrong second column is refused |
| UnitVectors.CsvBadRowLengthVector | test/ci_support/CDashQueryAnalizeReport_UnitTests.py:212-222 | the four-field second row fails, naming that row |
| UnitVectors.ExpectedBuildsFileVector | test/ci_support/CDashQueryAnalizeReport_UnitTests.py:234-254 | the tests' expected-builds file gives the three expected identity tuples, in order |
| Builds.ToDict | test/ci_support/CDashQueryAnalizeReport_UnitTests.py:349-357 | the dictionary form of a summary has the identity keys and exactly the sections the summary holds |
| Builds.CollectCDashIndexBuildSummaryFields | test/ci_support/CDashQueryAnalizeReport_UnitTests.py:349-391 | succeeds exactly when the raw build has string `site` and `buildname` and every present status section carries its integer counters. The summary's dictionary is then the raw build reduced to `group` (set to the given group name), `site`, `buildname` and the present sections cut down to their tracked counters. Extra keys are dropped, and absent sections stay absent. |
| Builds.SectionsDecode | test/ci_support/CDashQueryAnalizeReport_UnitTests.py:377-391 | each section decodes exactly when it is absent or carries its counters |
| Builds.GetCDashIndexBuildsSummary | test/ci_support/CDashQueryAnalizeReport_UnitTests.py:414-422 | succeeds exactly when the payload decodes into groups and every raw build of every group can be summarized. It then gives one summary per raw build of every group, in payload order; each carries the name of the group it was listed under and the reduced dictionary of its raw build |
| Builds.SummarizeGroups | test/ci_support/CDashQueryAnalizeReport_UnitTests.py:414-422 | the groups' builds are summarized exactly when every one of them can be, and then each summary is that of its raw build |
| Builds.SummariesOfConcat | test/ci_support/CDashQueryAnalizeReport_UnitTests.py:414-422 | summarizing two lists of raw builds one after the other gives the summaries of their concatenation |
| Builds.CanonKeyOrder | test/ci_support/CDashQueryAnalizeReport_UnitTests.py:737-761 | the rendering of a summary lists exactly the keys of its dictionary, each once, in strictly increasing order, so it does not depend on the order in which a dictionary was filled |
| Builds.PresentKeysSorted | test/ci_support/CDashQueryAnalizeReport_UnitTests.py:737-761 | keeping some keys of a strictly sorted key list keeps it strictly sorted |
| UnitVectors.ExtractFullVector | test/ci_support/CDashQueryAnalizeReport_UnitTests.py:373-375 | the tests' raw build, extra key included, gives the tests' summary |
| UnitVectors.ExtractMissingUpdateVector | test/ci_support/CDashQueryAnalizeReport_UnitTests.py:377-383 | a raw build without `update` gives the summary without `update` |
| UnitVectors.ExtractMissingConfigureVector | test/ci_support/CDashQueryAnalizeReport_UnitTests.py:385-391 | a raw build without `configure` gives the summary without `configure` |
| BuildIndex.LookupBuildSummaryGivenLookupDict | test/ci_support/CDashQueryAnalizeReport_UnitTests.py:476-503 | the lookup finds nothing exactly when the group, the site under it or the build name under that is missing; otherwise it returns the stored summary |
| BuildIndex.CreateBuildLookupDict | test/ci_support/CDashQueryAnalizeReport_UnitTests.py:431-468 | every entry is stored under its own group, site and build name, no group or site level is empty, and looking up any tuple gives the last listed build with that tuple, or nothing if none is listed |
| BuildIndex.LookupsDetermineIndex | test/ci_support/CDashQueryAnalizeReport_UnitTests.py:459-467 | two indexes without empty levels that answer every lookup alike are the same nested dictionary, so the contract above fixes the whole dictionary the test compares |
| BuildIndex.LastWithKey | test/ci_support/CDashQueryAnalizeReport_UnitTests.py:431-468 | the reference definition: nothing exactly when no build has the tuple, otherwise a build with that tuple that no later build shares |
| BuildIndex.LookupInsert | test/ci_support/CDashQueryAnalizeReport_UnitTests.py:431-468 | after one insertion the lookup finds the inserted build under its own tuple and gives what it gave before for every other tuple |
| BuildIndex.LookupFindsBuild | test/ci_support/CDashQueryAnalizeReport_UnitTests.py:487-496 | a listed build whose tuple no later build repeats is found by that tuple |
| BuildIndex.LookupMissesAbsentKey | test/ci_support/CDashQueryAnalizeReport_UnitTests.py:497-499 | a tuple no listed build has is not found |
| UnitVectors.CreateListedIndexVector | test/ci_support/CDashQueryAnalizeReport_UnitTests.py:431-467 | the five listed builds index into exactly the tests' group → site → build-name dictionary |
| UnitVectors.LookupFoundVectors | test/ci_support/CDashQueryAnalizeReport_UnitTests.py:487-494 | each of the five listed builds is found by its own tuple |
| UnitVectors.LookupMissingBuildnameVector | test/ci_support/CDashQueryAnalizeReport_UnitTests.py:497 | an unknown build name under a known site is not found |
| UnitVectors.LookupMissingSiteVector | test/ci_support/CDashQueryAnalizeReport_UnitTests.py:498 | an unknown site under a known group is not found |
| UnitVectors.LookupMissingGroupVector | test/ci_support/CDashQueryAnalizeReport_UnitTests.py:499 | an unknown group is not found |
| Matcher.GetMissingExpectedBuildsList | test/ci_support/CDashQueryAnalizeReport_UnitTests.py:505-522 | the reports follow the order of the expected list and name only expected tuples. An expected tuple is reported exactly when it is not found or is found without a `test` section. Its status is "not found" exactly when the lookup misses it. |
| Matcher.MissingIsFilter | test/ci_support/CDashQueryAnalizeReport_UnitTests.py:505-522 | the reported tuples are exactly the expected tuples that need a report, kept in expected order with repeats; `ToReport` is that filter, defined independently of the index walk |
| Matcher.ToReportMultiplicity | test/ci_support/CDashQueryAnalizeReport_UnitTests.py:505-522 | the filter keeps each tuple that needs a report as often as it is expected and drops every other tuple |
| Matcher.MissingMultiplicity | test/ci_support/CDashQueryAnalizeReport_UnitTests.py:505-522 | a tuple that needs a report is reported as many times as it is expected, and a tuple that does not is never reported |
| Matcher.AllAbsentReported | test/ci_support/CDashQueryAnalizeReport_UnitTests.py:505-522 | when no expected tuple is in the index, each is reported as not found, one for one and in order |
| UnitVectors.MatcherVector | test/ci_support/CDashQueryAnalizeReport_UnitTests.py:507-522 | the build without test results and the unlisted build are reported, in that order and with those statuses; the build with test results is not |
| PassFail.CdashIndexBuildPasses | test/ci_support/CDashQueryAnalizeReport_UnitTests.py:563-592 | a build passes exactly when every tracked counter of every section it has is zero |
| PassFail.SingleCounterDecides | test/ci_support/CDashQueryAnalizeReport_UnitTests.py:569-592 | setting any one tracked counter of a present section to a nonzero value fails the build; setting it to zero on a passing build keeps it passing |
| PassFail.SetCounter | test/ci_support/CDashQueryAnalizeReport_UnitTests.py:569-592 | setting one counter changes that counter only: the identity, the set of sections and every other counter stay as they were |
| UnitVectors.BuildPassesVectors | test/ci_support/CDashQueryAnalizeReport_UnitTests.py:565-592 | the tests' passing summary passes, and each of the five single-counter changes fails it |
| PassFail.CdashIndexBuildsPass | test/ci_support/CDashQueryAnalizeReport_UnitTests.py:594-636 | the builds pass, with an empty message, exactly when every build passes; otherwise the message names the first failing build in list order |
| UnitVectors.BuildsPassVectors | test/ci_support/CDashQueryAnalizeReport_UnitTests.py:609-636 | two passing builds pass; a failing build is reported whether it comes first or second |
| PassFail.GetCDashIndexBuildNames | test/ci_support/CDashQueryAnalizeReport_UnitTests.py:638-648 | one name per build, the build's own, in list order |
| PassFail.DoAllExpectedBuildsExist | test/ci_support/CDashQueryAnalizeReport_UnitTests.py:656-724 | true, with an empty message, exactly when every expected name occurs among the names, whatever their order and whatever other names there are; otherwise the message names the first missing expected name and lists the actual names |
| UnitVectors.GateFoundVectors | test/ci_support/CDashQueryAnalizeReport_UnitTests.py:658-697 | the gate passes for equal lists, for the same names in another order, and for extra actual names |
| UnitVectors.GateMissingVectors | test/ci_support/CDashQueryAnalizeReport_UnitTests.py:666-724 | the gate fails with the tests' exact messages for a single wrong name, for a missing second name, for a missing first name and for a name absent from two, always reporting the first missing expected name |
| PassFail.CdashIndexBuildsPassAndExpectedExist | test/ci_support/CDashQueryAnalizeReport_UnitTests.py:726-772 | passes exactly when every expected name belongs to some build and every build passes. A missing expected build is reported before any failing build. |
| UnitVectors.PassAndExistPassVector | test/ci_support/CDashQueryAnalizeReport_UnitTests.py:726-735 | one passing, expected build passes |
| UnitVectors.PassAndExistFailVector | test/ci_support/CDashQueryAnalizeReport_UnitTests.py:737-761 | a build with a configure error is reported by its rendering |
| UnitVectors.PassAndExistMissingVector | test/ci_support/CDashQueryAnalizeReport_UnitTests.py:763-772 | a passing build "build1" with "build2" expected fails with the tests' exact message naming "build2" and the list ['build1'] |
| UnitVectors.PassAndExistMissingBeforeFailVector | test/ci_support/CDashQueryAnalizeReport_UnitTests.py:726-772 | when the one build present also fails, the missing expected name is what is reported |
| PassFail.QueryCDashAndDeterminePassFail | test/ci_support/CDashQueryAnalizeReport_UnitTests.py:786-900 | on a payload that can be summarized, the verdict is the combined check on its summaries: pass exactly when every expected name is present and every build passes. It fails only when the payload cannot be summarized. |
| UnitVectors.QueryPassVector | test/ci_support/CDashQueryAnalizeReport_UnitTests.py:805-823 | two passing builds in two groups, both expected, pass |
| UnitVectors.QueryFailVector | test/ci_support/CDashQueryAnalizeReport_UnitTests.py:871-900 | a build with tests not run fails. It is reported with the group of the payload it was listed under. |
| HtmlTable.ValueText | test/ci_support/CDashQueryAnalizeReport_UnitTests.py:916-971 | strings show as they are; an integer shows as Python's `str` writes it: the decimal digits of its magnitude without leading zeros, after a `-` when it is negative |
| Text.IntToDecimal | test/ci_support/CDashQueryAnalizeReport_UnitTests.py:916-971 | the canonical decimal digits of the magnitude, after a `-` exactly when the number is negative |
| Text.CanonicalUnique | test/ci_support/CDashQueryAnalizeReport_UnitTests.py:916-971 | a number has exactly one decimal spelling without leading zeros, the one `NatToDecimal` writes |
| HtmlTable.DataCells | test/ci_support/CDashQueryAnalizeReport_UnitTests.py:916-971 | a row's cells render exactly when the row has every column's key; otherwise the error names the first missing key |
| HtmlTable.RowsHtml | test/ci_support/CDashQueryAnalizeReport_UnitTests.py:916-971 | the rows render exactly when every row has every column's key; otherwise the error is that of the first row that lacks one |
| HtmlTable.CreateHtmlTableStr | test/ci_support/CDashQueryAnalizeReport_UnitTests.py:916-1005 | renders exactly when every row has every column's key. The table is the style block (the default one when none is given), the title and the table tag with its attributes (the default ones when none are given). Then come the header row and the data rows in order. |
| HtmlTable.HeaderCellsConcat | test/ci_support/CDashQueryAnalizeReport_UnitTests.py:944-948 | the header cells of two column lists are those of each in turn |
| HtmlTable.DataCellsConcat | test/ci_support/CDashQueryAnalizeReport_UnitTests.py:950-954 | a row's cells under two column lists are those under each in turn |
| HtmlTable.RowsHtmlConcat | test/ci_support/CDashQueryAnalizeReport_UnitTests.py:950-966 | rendering two row lists gives the rendering of each in turn, and fails exactly when one of them does |
| HtmlTable.OneHeaderCell | test/ci_support/CDashQueryAnalizeReport_UnitTests.py:973-1005 | one column gives its one header cell |
| HtmlTable.OneDataCell | test/ci_support/CDashQueryAnalizeReport_UnitTests.py:973-1005 | a row under one column renders as that column's one cell |
| HtmlTable.OneRowHtml | test/ci_support/CDashQueryAnalizeReport_UnitTests.py:973-1005 | a single row renders as that row alone |
| HtmlTable.TableFrame | test/ci_support/CDashQueryAnalizeReport_UnitTests.py:916-971 | whatever the rows, the table starts with the style block, the title and the opening tags, and ends with the closing tag |
| UnitVectors.HtmlThreeByThreeVector | test/ci_support/CDashQueryAnalizeReport_UnitTests.py:916-971 | the tests' three-by-three table with a custom style renders to the expected text, the integer column right-aligned |
| UnitVectors.HtmlOneByOneVector | test/ci_support/CDashQueryAnalizeReport_UnitTests.py:973-1005 | the one-cell table with the default style and empty table attributes renders to the expected text |
| Text.SplitJoin | test/ci_support/CDashQueryAnalizeReport_UnitTests.py:131-165 | joining pieces that hold no separator and splitting the result again gives back the pieces |
| Text.StripAfterBlanks | test/ci_support/CDashQueryAnalizeReport_UnitTests.py:131-165 | whitespace in front of a field does not change its strip |
| Text.ZeroPadValue | test/ci_support/CDashQueryAnalizeReport_UnitTests.py:92-110 | a value that fits in the width reads back from its zero-padded form |

## Left out

- Reading and writing files: the CSV functions take the file's text, not its name.
- Fetching over the network: `queryCDashAndDeterminePassFail` takes the payload the fetch functor would return. Also left out are the mock functor, `downloadBuildsOffCDashAndSummarize` and the cache in `getAndCacheCDashQueryDataOrReadFromCache`. All of these are I/O.
- The `cdash_index_query_data*.txt` data files used by the `getCDashIndexBuildsSummary` test are not part of this model. The function itself is modelled on arbitrary payloads.
- `createCDashDataSummaryHtmlTableStr`: it has no test, only to-do notes.
- The verbose and printing parameters: they only print.
- Builds.Canon: a concrete sorted rendering in the shape of Python's `repr`. String escaping and Unicode prefixes are not modelled; only key order and content are.
- Dates.ValidateYYYYMMDD: checks the `%Y-%m-%d` pattern (four-digit year, month 1-12, day 1-31), not calendar validity, so "2015-02-31" is accepted. Year 0 is accepted too ("0000-12-21"), where Python's `datetime` raises. Python's `strptime` also accepts a few more forms (a space-padded day, non-ASCII digits); these are not modelled. The text of `InvalidDateMessage` is the model's own wording; the tests only check that a `ValueError` is raised.
- Text.Strip: treats only ASCII whitespace as whitespace.
- Csv.ReadCsvFileIntoListOfDicts: the header check is positional (same length, same column at each position). An empty expected list disables the check, as Python's `if expectedColumnHeadersList:` does. Every blank data line is skipped, not only trailing ones. Quoted fields are not modelled.
- Builds.CollectCDashIndexBuildSummaryFields: a raw build that lacks `site` or `buildname`, or whose `site` or `buildname` is not a string, or whose present section lacks a tracked integer counter, gives a `Failure`. For a missing key Python raises `KeyError`; a non-string `site` or `buildname` it copies as it is.
- PassFail.CdashIndexBuildPasses: a section absent from the summary counts as passing, the same as one whose counters are zero. The tests only use summaries that have every section.
- Matcher.NeedsReport: only asks whether a `test` section is present. The model's `test` section is the typed `TestStatus`, so the tests' `{'pass': 1}` stand-in is modelled as a present section.
- BuildIndex.CreateBuildLookupDict: the tests' extra `data` field is not carried; the lookup returns the whole summary.
- HtmlTable.Value: only string and integer cells are modelled. Floats, `None`, booleans and other values Python's `str` can print are not.
- Text.ReprList: quotes each name as `'name'`, without Python's `repr` escaping. Python picks double quotes for a name holding `'`, escapes backslashes and non-printable characters, and under Python 2 prints a `u` prefix on Unicode strings. None of this is modelled.
- HtmlTable.CreateHtmlTableStr: a row lacking a column's key gives `Failure(MissingColumnKey(key))` where Python raises `KeyError`. A `None` style means the default style.
- The test file defines `test_pass4` and `test_fail1` twice each, so the "2015-01-1" case never runs; `Dates.ValidateAcceptsSpellings` covers that spelling anyway.
