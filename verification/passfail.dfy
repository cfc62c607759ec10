/** The pass/fail evaluator and the entry points that combine it with the
    name-only existence gate.
 */
module PassFail {
  import opened Results
  import opened Text
  import opened Builds

  /** Every tracked counter of every present section is zero. */
  predicate AllCountersZero(b: Build) {
    forall k, n :: k in SectionKeys && HasKey(b, k) && n in TrackedCounters(k) ==> Counter(b, k, n) == 0
  }

  /** Python's `cdashIndexBuildPasses`: checks `update.errors`,
      `configure.error`, `compilation.error`, `test.fail` and `test.notrun` in
      turn.  A build passes exactly when every counter of every section it
      has is zero; an absent section is not checked. */
  function CdashIndexBuildPasses(b: Build): (r: bool)
    ensures r <==> AllCountersZero(b)
  {
    assert TrackedCounters("update") == ["errors"] && TrackedCounters("configure") == ["error"];
    assert TrackedCounters("compilation") == ["error"] && TrackedCounters("test") == ["fail", "notrun"];
    if b.update.Some? && b.update.value.errors != 0 then
      assert Counter(b, "update", "errors") != 0;
      false
    else if b.configure.Some? && b.configure.value.error != 0 then
      assert Counter(b, "configure", "error") != 0;
      false
    else if b.compilation.Some? && b.compilation.value.error != 0 then
      assert Counter(b, "compilation", "error") != 0;
      false
    else if b.test.Some? && b.test.value.fail != 0 then
      assert Counter(b, "test", "fail") != 0;
      false
    else if b.test.Some? && b.test.value.notrun != 0 then
      assert Counter(b, "test", "notrun") != 0;
      false
    else true
  }

  /** Python's `build[k][n] = v` on a summary that has section `k`. */
  function SetCounter(b: Build, k: string, n: string, v: int): (r: Build)
    requires k in SectionKeys && HasKey(b, k) && n in TrackedCounters(k)
    ensures KeyOf(r) == KeyOf(b)
    ensures forall k' :: HasKey(r, k') <==> HasKey(b, k')
    ensures Counter(r, k, n) == v
    ensures forall k', n' :: k' in SectionKeys && HasKey(b, k') && n' in TrackedCounters(k') && (k', n') != (k, n) ==>
      Counter(r, k', n') == Counter(b, k', n')
  {
    if k == "update" then b.(update := Some(UpdateStatus(v)))
    else if k == "configure" then b.(configure := Some(StageStatus(v)))
    else if k == "compilation" then b.(compilation := Some(StageStatus(v)))
    else if n == "fail" then b.(test := Some(b.test.value.(fail := v)))
    else b.(test := Some(b.test.value.(notrun := v)))
  }

  /** Setting any one tracked counter of a present section to a nonzero
      value makes the build fail; setting it to zero on a passing build
      keeps it passing. */
  lemma SingleCounterDecides(b: Build, k: string, n: string, v: int)
    requires k in SectionKeys && HasKey(b, k) && n in TrackedCounters(k)
    ensures v != 0 ==> !CdashIndexBuildPasses(SetCounter(b, k, n, v))
    ensures v == 0 && CdashIndexBuildPasses(b) ==> CdashIndexBuildPasses(SetCounter(b, k, n, v))
  {
    var r := SetCounter(b, k, n, v);
    if v == 0 && CdashIndexBuildPasses(b) {
      forall k', n' | k' in SectionKeys && HasKey(r, k') && n' in TrackedCounters(k')
        ensures Counter(r, k', n') == 0
      {
        if (k', n') != (k, n) {
          assert Counter(r, k', n') == Counter(b, k', n');
        }
      }
    }
  }

  /** The message naming a failed build. */
  function BuildFailedMessage(b: Build): string {
    "Error, the build " + Canon(b) + " failed!"
  }

  /** Python's `cdashIndexBuildsPass`: `(true, "")` when every build passes;
      otherwise `false` with the message naming the first failing build in
      list order. */
  function CdashIndexBuildsPass(bs: seq<Build>): (r: (bool, string))
    ensures r.0 <==> forall i :: 0 <= i < |bs| ==> CdashIndexBuildPasses(bs[i])
    ensures r.0 ==> r.1 == ""
    ensures !r.0 ==> exists i ::
      && 0 <= i < |bs|
      && !CdashIndexBuildPasses(bs[i])
      && (forall j :: 0 <= j < i ==> CdashIndexBuildPasses(bs[j]))
      && r.1 == BuildFailedMessage(bs[i])
  {
    if |bs| == 0 then (true, "")
    else if !CdashIndexBuildPasses(bs[0]) then (false, BuildFailedMessage(bs[0]))
    else
      var r := CdashIndexBuildsPass(bs[1..]);
      assert forall i :: 0 < i < |bs| ==> bs[i] == bs[1..][i - 1];
      if !r.0 then
        var i :| 0 <= i < |bs[1..]| && !CdashIndexBuildPasses(bs[1..][i])
          && (forall j :: 0 <= j < i ==> CdashIndexBuildPasses(bs[1..][j]))
          && r.1 == BuildFailedMessage(bs[1..][i]);
        assert forall j :: 0 <= j < i + 1 ==> CdashIndexBuildPasses(bs[j]);
        r
      else r
  }

  /** Python's `getCDashIndexBuildNames`: the build names, in list order. */
  function GetCDashIndexBuildNames(bs: seq<Build>): (r: seq<string>)
    ensures |r| == |bs| && forall i :: 0 <= i < |bs| ==> r[i] == bs[i].buildname
  {
    if |bs| == 0 then [] else [bs[0].buildname] + GetCDashIndexBuildNames(bs[1..])
  }

  /** The message naming an expected build missing from `names`. */
  function MissingExpectedBuildMessage(expected: string, names: seq<string>): string {
    "Error, the expected build " + Quote(expected) + " does not exist in the list of builds " + ReprList(names)
  }

  /** Python's `doAllExpectedBuildsExist`: `(true, "")` exactly when every
      expected name occurs among the actual names, whatever their order and
      whatever other names there are; otherwise `false` with the message
      naming the first missing expected name. */
  function DoAllExpectedBuildsExist(names: seq<string>, expected: seq<string>): (r: (bool, string))
    ensures r.0 <==> forall i :: 0 <= i < |expected| ==> expected[i] in names
    ensures r.0 ==> r.1 == ""
    ensures !r.0 ==> exists i ::
      && 0 <= i < |expected|
      && expected[i] !in names
      && (forall j :: 0 <= j < i ==> expected[j] in names)
      && r.1 == MissingExpectedBuildMessage(expected[i], names)
  {
    if |expected| == 0 then (true, "")
    else if expected[0] !in names then (false, MissingExpectedBuildMessage(expected[0], names))
    else
      var r := DoAllExpectedBuildsExist(names, expected[1..]);
      assert forall i :: 0 < i < |expected| ==> expected[i] == expected[1..][i - 1];
      if !r.0 then
        var i :| 0 <= i < |expected[1..]| && expected[1..][i] !in names
          && (forall j :: 0 <= j < i ==> expected[1..][j] in names)
          && r.1 == MissingExpectedBuildMessage(expected[1..][i], names);
        assert forall j :: 0 <= j < i + 1 ==> expected[j] in names;
        r
      else r
  }

  /** Python's `cdashIndexBuildsPassAndExpectedExist`: passes exactly when
      every expected name is among the builds and every build passes; a
      missing expected build is reported before any failing build. */
  function CdashIndexBuildsPassAndExpectedExist(bs: seq<Build>, expected: seq<string>): (r: (bool, string))
    ensures r.0 <==>
      && (forall i :: 0 <= i < |expected| ==> exists j :: 0 <= j < |bs| && bs[j].buildname == expected[i])
      && (forall j :: 0 <= j < |bs| ==> CdashIndexBuildPasses(bs[j]))
    ensures !DoAllExpectedBuildsExist(GetCDashIndexBuildNames(bs), expected).0 ==>
      r == DoAllExpectedBuildsExist(GetCDashIndexBuildNames(bs), expected)
    ensures DoAllExpectedBuildsExist(GetCDashIndexBuildNames(bs), expected).0 ==> r == CdashIndexBuildsPass(bs)
  {
    var names := GetCDashIndexBuildNames(bs);
    assert forall e :: e in names <==> exists j :: 0 <= j < |bs| && bs[j].buildname == e by {
      forall e | e in names
        ensures exists j :: 0 <= j < |bs| && bs[j].buildname == e
      {
        var j :| 0 <= j < |names| && names[j] == e;
        assert bs[j].buildname == e;
      }
    }
    var gate := DoAllExpectedBuildsExist(names, expected);
    if !gate.0 then gate else CdashIndexBuildsPass(bs)
  }

  /** Python's `queryCDashAndDeterminePassFail` from the already fetched
      index payload: summarizes it, then runs the combined check on the
      summaries; it fails only when the payload cannot be summarized. */
  function QueryCDashAndDeterminePassFail(payload: Json, expected: seq<string>): (r: Result<(bool, string), ExtractError>)
    ensures r.Success? <==> GetCDashIndexBuildsSummary(payload).Success?
    ensures r.Success? ==>
      var bs := GetCDashIndexBuildsSummary(payload).value;
      && r.value == CdashIndexBuildsPassAndExpectedExist(bs, expected)
      && (r.value.0 <==>
           && (forall i :: 0 <= i < |expected| ==> exists j :: 0 <= j < |bs| && bs[j].buildname == expected[i])
           && (forall j :: 0 <= j < |bs| ==> CdashIndexBuildPasses(bs[j])))
  {
    var bs :- GetCDashIndexBuildsSummary(payload);
    Success(CdashIndexBuildsPassAndExpectedExist(bs, expected))
  }
}
