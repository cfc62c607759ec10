/** Build summaries and their extraction from the dashboard's index payload.

    The payload is JSON-like: `{'buildgroups': [{'name': G, 'builds': [raw, ...]}, ...]}`
    where each raw build is an object carrying `site`, `buildname`, any of the
    status sections `update` (`errors`), `configure` (`error`), `compilation`
    (`error`) and `test` (`fail`, `notrun`), and arbitrary other keys.  A
    summary keeps the group it was found under, the site, the build name and
    the present sections reduced to the counters above; everything else is
    dropped.
 */
module Builds {
  import opened Results
  import opened Text

  /** A JSON-like value as the dashboard delivers it. */
  datatype Json = JStr(str: string) | JInt(num: int) | JList(items: seq<Json>) | JObj(fields: map<string, Json>)

  datatype UpdateStatus = UpdateStatus(errors: int)
  datatype StageStatus = StageStatus(error: int)
  datatype TestStatus = TestStatus(fail: int, notrun: int)

  /** One build's summary; a section that was not reported is `None`, which
      is distinct from a section whose counters are zero. */
  datatype Build = Build(
    group: string,
    site: string,
    buildname: string,
    update: Option<UpdateStatus>,
    configure: Option<StageStatus>,
    compilation: Option<StageStatus>,
    test: Option<TestStatus>)

  /** The identity tuple of a build. */
  datatype BuildKey = BuildKey(group: string, site: string, buildname: string)

  function KeyOf(b: Build): BuildKey {
    BuildKey(b.group, b.site, b.buildname)
  }

  const IdentityKeys: set<string> := {"group", "site", "buildname"}
  const SectionKeys: set<string> := {"update", "configure", "compilation", "test"}

  /** The counters a summary keeps from each section, in sorted order. */
  function TrackedCounters(section: string): seq<string> {
    if section == "update" then ["errors"]
    else if section == "test" then ["fail", "notrun"]
    else ["error"]
  }

  /** Whether the summary has the key `k` in its dictionary form. */
  predicate HasKey(b: Build, k: string) {
    || k in IdentityKeys
    || (k == "update" && b.update.Some?)
    || (k == "configure" && b.configure.Some?)
    || (k == "compilation" && b.compilation.Some?)
    || (k == "test" && b.test.Some?)
  }

  /** The value of counter `n` of the present section `k`. */
  function Counter(b: Build, k: string, n: string): int
    requires k in SectionKeys && HasKey(b, k)
  {
    if k == "update" then b.update.value.errors
    else if k == "configure" then b.configure.value.error
    else if k == "compilation" then b.compilation.value.error
    else if n == "fail" then b.test.value.fail
    else b.test.value.notrun
  }

  /** The summary as the Python dictionary it stands for. */
  function ToDict(b: Build): (d: map<string, Json>)
    ensures forall k :: k in d <==> HasKey(b, k)
  {
    map k | k in IdentityKeys + SectionKeys && HasKey(b, k) ::
      if k == "group" then JStr(b.group)
      else if k == "site" then JStr(b.site)
      else if k == "buildname" then JStr(b.buildname)
      else JObj(map n | n in TrackedCounters(k) :: JInt(Counter(b, k, n)))
  }

  /** The integer stored under `name` in a raw section object, if any. */
  function CounterOf(section: Json, name: string): Option<int> {
    if section.JObj? && name in section.fields && section.fields[name].JInt? then
      Some(section.fields[name].num)
    else None
  }

  /** A raw section from which every counter in `names` can be read. */
  predicate Readable(section: Json, names: seq<string>) {
    forall n :: n in names ==> CounterOf(section, n).Some?
  }

  /** A raw section from which every tracked counter can be read. */
  predicate ReadableSection(section: Json, k: string) {
    Readable(section, TrackedCounters(k))
  }

  /** A raw build a summary can be made of: string `site` and `buildname`,
      and readable counters in every section present. */
  predicate Summarizable(raw: map<string, Json>) {
    && "site" in raw && raw["site"].JStr?
    && "buildname" in raw && raw["buildname"].JStr?
    && forall k :: k in SectionKeys && k in raw ==> ReadableSection(raw[k], k)
  }

  /** Keeps only the entries of a raw section object that are tracked counters. */
  function ReduceSection(section: Json, k: string): Json {
    if section.JObj? then JObj(map n | n in section.fields && n in TrackedCounters(k) :: section.fields[n])
    else section
  }

  /** The dictionary the summary of `raw` found under group `groupName` must
      be: exactly `group` (the given name, whatever `raw` says), `site`,
      `buildname` and the sections `raw` has, each cut down to its tracked
      counters. */
  function ExpectedSummaryDict(raw: map<string, Json>, groupName: string): map<string, Json> {
    map k | k in IdentityKeys + SectionKeys && (k == "group" || k in raw) ::
      if k == "group" then JStr(groupName)
      else if k in SectionKeys then ReduceSection(raw[k], k)
      else raw[k]
  }

  /** Why a payload or a raw build cannot be summarized (a Python exception). */
  datatype ExtractError =
    | MissingKey(key: string)          // `site` or `buildname` absent (or not a string)
    | MalformedSection(section: string) // a present section without its integer counters
    | MalformedPayload                  // not `{'buildgroups': [{'name': ..., 'builds': [...]}, ...]}`

  function CounterOrFail(section: Json, name: string, k: string): (r: Result<int, ExtractError>)
    ensures r.Success? <==> CounterOf(section, name).Some?
    ensures r.Success? ==> r.value == CounterOf(section, name).value
  {
    match CounterOf(section, name)
    case Some(n) => Success(n)
    case None => Failure(MalformedSection(k))
  }

  function DecodeUpdate(raw: map<string, Json>): Result<Option<UpdateStatus>, ExtractError> {
    if "update" !in raw then Success(None)
    else
      var errors :- CounterOrFail(raw["update"], "errors", "update");
      Success(Some(UpdateStatus(errors)))
  }

  function DecodeStage(raw: map<string, Json>, k: string): Result<Option<StageStatus>, ExtractError> {
    if k !in raw then Success(None)
    else
      var error :- CounterOrFail(raw[k], "error", k);
      Success(Some(StageStatus(error)))
  }

  function DecodeTest(raw: map<string, Json>): Result<Option<TestStatus>, ExtractError> {
    if "test" !in raw then Success(None)
    else
      var fail :- CounterOrFail(raw["test"], "fail", "test");
      var notrun :- CounterOrFail(raw["test"], "notrun", "test");
      Success(Some(TestStatus(fail, notrun)))
  }

  /** Each section decodes exactly when it is absent or readable. */
  lemma SectionsDecode(raw: map<string, Json>)
    ensures DecodeUpdate(raw).Success? <==> ("update" in raw ==> ReadableSection(raw["update"], "update"))
    ensures DecodeStage(raw, "configure").Success? <==> ("configure" in raw ==> ReadableSection(raw["configure"], "configure"))
    ensures DecodeStage(raw, "compilation").Success? <==> ("compilation" in raw ==> ReadableSection(raw["compilation"], "compilation"))
    ensures DecodeTest(raw).Success? <==> ("test" in raw ==> ReadableSection(raw["test"], "test"))
  {
    assert TrackedCounters("update") == ["errors"];
    assert TrackedCounters("configure") == ["error"];
    assert TrackedCounters("compilation") == ["error"];
    assert TrackedCounters("test") == ["fail", "notrun"];
  }

  /** The summary of one raw build found under `groupName`: it exists exactly
      when the raw build is summarizable (otherwise Python raises), and its
      dictionary form is `ExpectedSummaryDict`: the group is forced to
      `groupName`, extra keys are dropped, absent sections stay absent. */
  function CollectCDashIndexBuildSummaryFields(raw: map<string, Json>, groupName: string): (r: Result<Build, ExtractError>)
    ensures r.Success? <==> Summarizable(raw)
    ensures r.Success? ==> r.value.group == groupName && ToDict(r.value) == ExpectedSummaryDict(raw, groupName)
  {
    if "site" !in raw || !raw["site"].JStr? then Failure(MissingKey("site"))
    else if "buildname" !in raw || !raw["buildname"].JStr? then Failure(MissingKey("buildname"))
    else
      var update := DecodeUpdate(raw);
      var configure := DecodeStage(raw, "configure");
      var compilation := DecodeStage(raw, "compilation");
      var test := DecodeTest(raw);
      SectionsDecode(raw);
      if update.Failure? then Failure(update.error)
      else if configure.Failure? then Failure(configure.error)
      else if compilation.Failure? then Failure(compilation.error)
      else if test.Failure? then Failure(test.error)
      else
        var b := Build(groupName, raw["site"].str, raw["buildname"].str,
                       update.value, configure.value, compilation.value, test.value);
        SummaryDictMatches(raw, groupName, b);
        Success(b)
  }

  lemma SummaryDictMatches(raw: map<string, Json>, groupName: string, b: Build)
    requires Summarizable(raw)
    requires b.group == groupName
    requires JStr(b.site) == raw["site"] && JStr(b.buildname) == raw["buildname"]
    requires DecodeUpdate(raw) == Success(b.update)
    requires DecodeStage(raw, "configure") == Success(b.configure)
    requires DecodeStage(raw, "compilation") == Success(b.compilation)
    requires DecodeTest(raw) == Success(b.test)
    ensures ToDict(b) == ExpectedSummaryDict(raw, groupName)
  {
    var d, e := ToDict(b), ExpectedSummaryDict(raw, groupName);
    forall k | k in SectionKeys && k in raw
      ensures k in d && d[k] == e[k]
    {
      SectionMatches(raw, b, k);
    }
    assert d.Keys == e.Keys;
  }

  lemma SectionMatches(raw: map<string, Json>, b: Build, k: string)
    requires k in SectionKeys && k in raw
    requires DecodeUpdate(raw) == Success(b.update)
    requires DecodeStage(raw, "configure") == Success(b.configure)
    requires DecodeStage(raw, "compilation") == Success(b.compilation)
    requires DecodeTest(raw) == Success(b.test)
    ensures HasKey(b, k)
    ensures JObj(map n | n in TrackedCounters(k) :: JInt(Counter(b, k, n))) == ReduceSection(raw[k], k)
  {
    var f := raw[k].fields;
    if k == "update" {
      assert "errors" in f && f["errors"] == JInt(b.update.value.errors);
    } else if k == "configure" {
      assert "error" in f && f["error"] == JInt(b.configure.value.error);
    } else if k == "compilation" {
      assert "error" in f && f["error"] == JInt(b.compilation.value.error);
    } else {
      assert "fail" in f && f["fail"] == JInt(b.test.value.fail);
      assert "notrun" in f && f["notrun"] == JInt(b.test.value.notrun);
    }
    var built := map n | n in TrackedCounters(k) :: JInt(Counter(b, k, n));
    var reduced := map n | n in f && n in TrackedCounters(k) :: f[n];
    assert built.Keys == reduced.Keys;
  }

  /** A raw build group: its name and its raw builds, in payload order. */
  datatype RawGroup = RawGroup(name: string, builds: seq<map<string, Json>>)

  function DecodeRawBuilds(items: seq<Json>): (r: Result<seq<map<string, Json>>, ExtractError>)
    ensures r.Success? <==> forall i :: 0 <= i < |items| ==> items[i].JObj?
    ensures r.Success? ==> |r.value| == |items| && forall i :: 0 <= i < |items| ==> r.value[i] == items[i].fields
  {
    if |items| == 0 then Success([])
    else if !items[0].JObj? then Failure(MalformedPayload)
    else
      var rest :- DecodeRawBuilds(items[1..]);
      assert forall i :: 0 < i < |items| ==> items[i] == items[1..][i - 1];
      Success([items[0].fields] + rest)
  }

  function DecodeRawGroup(item: Json): Result<RawGroup, ExtractError> {
    if !item.JObj? then Failure(MalformedPayload)
    else if "name" !in item.fields || !item.fields["name"].JStr? then Failure(MalformedPayload)
    else if "builds" !in item.fields || !item.fields["builds"].JList? then Failure(MalformedPayload)
    else
      var builds :- DecodeRawBuilds(item.fields["builds"].items);
      Success(RawGroup(item.fields["name"].str, builds))
  }

  function DecodeRawGroups(items: seq<Json>): (r: Result<seq<RawGroup>, ExtractError>)
    ensures r.Success? <==> forall i :: 0 <= i < |items| ==> DecodeRawGroup(items[i]).Success?
    ensures r.Success? ==> |r.value| == |items| && forall i :: 0 <= i < |items| ==> r.value[i] == DecodeRawGroup(items[i]).value
  {
    if |items| == 0 then Success([])
    else
      var first :- DecodeRawGroup(items[0]);
      var rest :- DecodeRawGroups(items[1..]);
      assert forall i :: 0 < i < |items| ==> items[i] == items[1..][i - 1];
      Success([first] + rest)
  }

  /** The payload's build groups, in payload order. */
  function DecodeBuildGroups(payload: Json): Result<seq<RawGroup>, ExtractError> {
    if !payload.JObj? || "buildgroups" !in payload.fields || !payload.fields["buildgroups"].JList? then
      Failure(MalformedPayload)
    else DecodeRawGroups(payload.fields["buildgroups"].items)
  }

  /** Every (group name, raw build) pair: groups in order, then builds in order. */
  function Flatten(groups: seq<RawGroup>): seq<(string, map<string, Json>)> {
    if |groups| == 0 then []
    else Tag(groups[0].name, groups[0].builds) + Flatten(groups[1..])
  }

  function Tag(name: string, raws: seq<map<string, Json>>): (r: seq<(string, map<string, Json>)>)
    ensures |r| == |raws| && forall i :: 0 <= i < |raws| ==> r[i] == (name, raws[i])
  {
    if |raws| == 0 then [] else [(name, raws[0])] + Tag(name, raws[1..])
  }

  predicate AllSummarizable(pairs: seq<(string, map<string, Json>)>) {
    forall i :: 0 <= i < |pairs| ==> Summarizable(pairs[i].1)
  }

  lemma AllSummarizableConcat(p1: seq<(string, map<string, Json>)>, p2: seq<(string, map<string, Json>)>)
    ensures AllSummarizable(p1 + p2) <==> AllSummarizable(p1) && AllSummarizable(p2)
  {
    if AllSummarizable(p1 + p2) {
      forall i | 0 <= i < |p1|
        ensures Summarizable(p1[i].1)
      {
        assert p1[i] == (p1 + p2)[i];
      }
      forall i | 0 <= i < |p2|
        ensures Summarizable(p2[i].1)
      {
        assert p2[i] == (p1 + p2)[|p1| + i];
      }
    }
  }

  /** Each summary is the extraction of the pair at the same position. */
  predicate SummariesOf(bs: seq<Build>, pairs: seq<(string, map<string, Json>)>) {
    && |bs| == |pairs|
    && forall i :: 0 <= i < |bs| ==> Success(bs[i]) == CollectCDashIndexBuildSummaryFields(pairs[i].1, pairs[i].0)
  }

  lemma SummariesOfConcat(bs1: seq<Build>, p1: seq<(string, map<string, Json>)>, bs2: seq<Build>, p2: seq<(string, map<string, Json>)>)
    requires SummariesOf(bs1, p1) && SummariesOf(bs2, p2)
    ensures SummariesOf(bs1 + bs2, p1 + p2)
  {
    forall i | |bs1| <= i < |bs1| + |bs2|
      ensures Success((bs1 + bs2)[i]) == CollectCDashIndexBuildSummaryFields((p1 + p2)[i].1, (p1 + p2)[i].0)
    {
      assert (bs1 + bs2)[i] == bs2[i - |bs1|] && (p1 + p2)[i] == p2[i - |bs1|];
    }
  }

  /** Summarizes the builds of one group, in order. */
  function SummarizeBuilds(name: string, raws: seq<map<string, Json>>): (r: Result<seq<Build>, ExtractError>)
    ensures r.Success? <==> AllSummarizable(Tag(name, raws))
    ensures r.Success? ==> SummariesOf(r.value, Tag(name, raws))
  {
    if |raws| == 0 then Success([])
    else
      var first :- CollectCDashIndexBuildSummaryFields(raws[0], name);
      var rest :- SummarizeBuilds(name, raws[1..]);
      assert forall i :: 0 < i < |raws| ==> raws[i] == raws[1..][i - 1];
      Success([first] + rest)
  }

  /** The flattened summaries of all groups: one summary per (group, raw
      build) pair of `Flatten`, in the same order, each the extraction of
      that pair; it fails exactly when some raw build is not summarizable. */
  function SummarizeGroups(groups: seq<RawGroup>): (r: Result<seq<Build>, ExtractError>)
    ensures r.Success? <==> AllSummarizable(Flatten(groups))
    ensures r.Success? ==> SummariesOf(r.value, Flatten(groups))
  {
    if |groups| == 0 then Success([])
    else
      var first := SummarizeBuilds(groups[0].name, groups[0].builds);
      var rest := SummarizeGroups(groups[1..]);
      var tagged := Tag(groups[0].name, groups[0].builds);
      var later := Flatten(groups[1..]);
      assert Flatten(groups) == tagged + later;
      AllSummarizableConcat(tagged, later);
      if first.Failure? then Failure(first.error)
      else if rest.Failure? then Failure(rest.error)
      else
        SummariesOfConcat(first.value, tagged, rest.value, later);
        Success(first.value + rest.value)
  }

  /** Python's `getCDashIndexBuildsSummary`: the summaries of every build of
      every group, flattened in payload order, each carrying the name of the
      group it was listed under and exactly the keys `ExpectedSummaryDict` names. */
  function GetCDashIndexBuildsSummary(payload: Json): (r: Result<seq<Build>, ExtractError>)
    ensures r.Success? <==>
      DecodeBuildGroups(payload).Success? && AllSummarizable(Flatten(DecodeBuildGroups(payload).value))
    ensures r.Success? ==>
      var pairs := Flatten(DecodeBuildGroups(payload).value);
      && |r.value| == |pairs|
      && (forall i :: 0 <= i < |pairs| ==>
           r.value[i].group == pairs[i].0 && ToDict(r.value[i]) == ExpectedSummaryDict(pairs[i].1, pairs[i].0))
  {
    var groups :- DecodeBuildGroups(payload);
    SummarizeGroups(groups)
  }

  /** The keys of a summary in Python's sorted order. */
  const SortedKeys: seq<string> := ["buildname", "compilation", "configure", "group", "site", "test", "update"]

  lemma SortedKeysAreSorted()
    ensures StrictlySorted(SortedKeys)
    ensures forall k :: k in SortedKeys <==> k in IdentityKeys + SectionKeys
  {
    AdjacentSortedIsSorted(SortedKeys);
  }

  /** Keeps, in order, the keys the summary has. */
  function PresentKeys(b: Build, keys: seq<string>): (r: seq<string>)
    ensures forall k :: k in r <==> k in keys && HasKey(b, k)
  {
    if |keys| == 0 then []
    else (if HasKey(b, keys[0]) then [keys[0]] else []) + PresentKeys(b, keys[1..])
  }

  /** Keeping some elements of a strictly sorted list keeps it strictly sorted. */
  lemma {:induction false} PresentKeysSorted(b: Build, keys: seq<string>)
    requires StrictlySorted(keys)
    ensures StrictlySorted(PresentKeys(b, keys))
    decreases |keys|
  {
    if |keys| > 0 {
      assert StrictlySorted(keys[1..]);
      PresentKeysSorted(b, keys[1..]);
      var rest := PresentKeys(b, keys[1..]);
      forall j | 0 <= j < |rest|
        ensures LexLess(keys[0], rest[j])
      {
        assert rest[j] in keys[1..];
      }
    }
  }

  /** `'name': value` for each counter in `names` of the present section `k`. */
  function CounterEntries(b: Build, k: string, names: seq<string>): (r: seq<string>)
    requires k in SectionKeys && HasKey(b, k)
    ensures |r| == |names|
    ensures forall i :: 0 <= i < |names| ==> r[i] == Quote(names[i]) + ": " + IntToDecimal(Counter(b, k, names[i]))
  {
    if |names| == 0 then []
    else [Quote(names[0]) + ": " + IntToDecimal(Counter(b, k, names[0]))] + CounterEntries(b, k, names[1..])
  }

  function RenderValue(b: Build, k: string): string
    requires HasKey(b, k)
  {
    if k == "group" then Quote(b.group)
    else if k == "site" then Quote(b.site)
    else if k == "buildname" then Quote(b.buildname)
    else if k in SectionKeys then "{" + Join(CounterEntries(b, k, TrackedCounters(k)), ", ") + "}"
    else ""
  }

  function RenderEntries(b: Build, keys: seq<string>): (r: seq<string>)
    requires forall i :: 0 <= i < |keys| ==> HasKey(b, keys[i])
    ensures |r| == |keys|
    ensures forall i :: 0 <= i < |keys| ==> r[i] == Quote(keys[i]) + ": " + RenderValue(b, keys[i])
  {
    if |keys| == 0 then [] else [Quote(keys[0]) + ": " + RenderValue(b, keys[0])] + RenderEntries(b, keys[1..])
  }

  /** The deterministic rendering of a summary used in failure messages
      (Python's `sorted_dict_str`): one `'key': value` entry per key of the
      summary, in sorted key order. */
  function Canon(b: Build): string {
    var keys := PresentKeys(b, SortedKeys);
    "{" + Join(RenderEntries(b, keys), ", ") + "}"
  }

  /** The entries of `Canon(b)` are exactly the keys of the summary's
      dictionary form, each once, in strictly increasing order: the rendering
      never depends on the order in which a dictionary was filled. */
  lemma CanonKeyOrder(b: Build)
    ensures var keys := PresentKeys(b, SortedKeys);
      && StrictlySorted(keys)
      && (forall k :: k in keys <==> k in ToDict(b))
      && Canon(b) == "{" + Join(RenderEntries(b, keys), ", ") + "}"
  {
    SortedKeysAreSorted();
    PresentKeysSorted(b, SortedKeys);
  }
}
