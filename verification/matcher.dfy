/** The expected-build matcher: which expected (group, site, build name)
    tuples are absent from the index, or present without test results.
 */
module Matcher {
  import opened Results
  import opened Builds
  import opened BuildIndex

  datatype Status = NotFound | NoTestResults

  /** The status strings the report shows. */
  function StatusText(s: Status): string {
    match s
    case NotFound => "Build not found on CDash"
    case NoTestResults => "Build exists but no test results"
  }

  /** One reported expected build: its identity tuple and why it is reported. */
  datatype MissingBuild = MissingBuild(group: string, site: string, buildname: string, status: Status)

  function MissingKeyOf(m: MissingBuild): BuildKey {
    BuildKey(m.group, m.site, m.buildname)
  }

  function MissingKeys(ms: seq<MissingBuild>): (r: seq<BuildKey>)
    ensures |r| == |ms| && forall j :: 0 <= j < |ms| ==> r[j] == MissingKeyOf(ms[j])
  {
    if |ms| == 0 then [] else [MissingKeyOf(ms[0])] + MissingKeys(ms[1..])
  }

  /** An expected tuple must be reported when it is not found, or found
      without a `test` section; what the test section holds does not matter. */
  predicate NeedsReport(idx: BuildLookup, key: BuildKey) {
    var found := LookupBuildSummaryGivenLookupDict(key, idx);
    found.None? || found.value.test.None?
  }

  /** `xs` is `ys` with some elements left out, order kept. */
  predicate IsSubsequence<T(==)>(xs: seq<T>, ys: seq<T>)
    decreases |ys|
  {
    if |xs| == 0 then true
    else if |ys| == 0 then false
    else if xs[0] == ys[0] then IsSubsequence(xs[1..], ys[1..])
    else IsSubsequence(xs, ys[1..])
  }

  /** The report for one expected tuple, if it needs one. */
  function Classify(idx: BuildLookup, key: BuildKey): Option<MissingBuild> {
    match LookupBuildSummaryGivenLookupDict(key, idx)
    case None => Some(MissingBuild(key.group, key.site, key.buildname, NotFound))
    case Some(b) =>
      if b.test.None? then Some(MissingBuild(key.group, key.site, key.buildname, NoTestResults))
      else None
  }

  lemma MultisetCons<T>(xs: seq<T>)
    requires |xs| > 0
    ensures multiset(xs) == multiset{xs[0]} + multiset(xs[1..])
  {
    assert xs == [xs[0]] + xs[1..];
  }

  /** Python's `getMissingExpectedBuildsList`: the reports, in the order of
      the expected list, for exactly the expected tuples that need one, each
      status telling whether the build was not found or has no test results. */
  function GetMissingExpectedBuildsList(idx: BuildLookup, expected: seq<BuildKey>): (r: seq<MissingBuild>)
    ensures |r| <= |expected|
    ensures IsSubsequence(MissingKeys(r), expected)
    ensures forall key :: key in expected ==> (key in MissingKeys(r) <==> NeedsReport(idx, key))
    ensures forall key :: key in MissingKeys(r) ==> key in expected
    ensures forall j :: 0 <= j < |r| ==>
      (r[j].status == NotFound <==> LookupBuildSummaryGivenLookupDict(MissingKeyOf(r[j]), idx).None?)
    ensures forall j :: 0 <= j < |r| ==> NeedsReport(idx, MissingKeyOf(r[j]))
    decreases |expected|
  {
    if |expected| == 0 then []
    else
      var rest := GetMissingExpectedBuildsList(idx, expected[1..]);
      var key := expected[0];
      assert forall k :: k in expected <==> k == key || k in expected[1..];
      match Classify(idx, key)
      case None => rest
      case Some(m) =>
        assert MissingKeys([m] + rest) == [key] + MissingKeys(rest);
        [m] + rest
  }

  /** The reference definition: the expected tuples that need a report,
      in the order they are expected. */
  function ToReport(idx: BuildLookup, expected: seq<BuildKey>): seq<BuildKey>
    decreases |expected|
  {
    if |expected| == 0 then []
    else (if NeedsReport(idx, expected[0]) then [expected[0]] else []) + ToReport(idx, expected[1..])
  }

  /** The reports name exactly the expected tuples that need one, in order,
      each as often as it is expected. */
  lemma {:induction false} MissingIsFilter(idx: BuildLookup, expected: seq<BuildKey>)
    ensures MissingKeys(GetMissingExpectedBuildsList(idx, expected)) == ToReport(idx, expected)
    decreases |expected|
  {
    if |expected| > 0 {
      MissingIsFilter(idx, expected[1..]);
      var rest := GetMissingExpectedBuildsList(idx, expected[1..]);
      match Classify(idx, expected[0])
      case None =>
      case Some(m) =>
        assert MissingKeys([m] + rest) == [expected[0]] + MissingKeys(rest);
    }
  }

  /** Filtering keeps every tuple that needs a report as many times as it
      occurs and drops every other tuple. */
  lemma {:induction false} ToReportMultiplicity(idx: BuildLookup, expected: seq<BuildKey>)
    ensures forall key ::
              multiset(ToReport(idx, expected))[key] == if NeedsReport(idx, key) then multiset(expected)[key] else 0
    decreases |expected|
  {
    if |expected| > 0 {
      var head := expected[0];
      ToReportMultiplicity(idx, expected[1..]);
      MultisetCons(expected);
      var first: seq<BuildKey> := if NeedsReport(idx, head) then [head] else [];
      assert multiset(first + ToReport(idx, expected[1..])) == multiset(first) + multiset(ToReport(idx, expected[1..]));
    }
  }

  /** Each expected tuple that needs a report is reported as many times as
      it is listed, and no other tuple is reported at all. */
  lemma MissingMultiplicity(idx: BuildLookup, expected: seq<BuildKey>)
    ensures forall key ::
              multiset(MissingKeys(GetMissingExpectedBuildsList(idx, expected)))[key]
              == if NeedsReport(idx, key) then multiset(expected)[key] else 0
  {
    MissingIsFilter(idx, expected);
    ToReportMultiplicity(idx, expected);
  }

  /** When none of the expected tuples is in the index, every one of them is
      reported as not found, in order. */
  lemma {:induction false} AllAbsentReported(idx: BuildLookup, expected: seq<BuildKey>)
    requires forall i :: 0 <= i < |expected| ==> LookupBuildSummaryGivenLookupDict(expected[i], idx).None?
    ensures var r := GetMissingExpectedBuildsList(idx, expected);
      && |r| == |expected|
      && forall i :: 0 <= i < |expected| ==>
           r[i] == MissingBuild(expected[i].group, expected[i].site, expected[i].buildname, NotFound)
    decreases |expected|
  {
    if |expected| > 0 {
      AllAbsentReported(idx, expected[1..]);
    }
  }
}
