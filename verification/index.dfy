/** The three-level build lookup index group -> site -> build name ->
    summary, built once from a list of summaries (a later summary with the
    same identity tuple replaces an earlier one) and read by exact key.
 */
module BuildIndex {
  import opened Results
  import opened Builds

  type BuildLookup = map<string, map<string, map<string, Build>>>

  /** Python's `lookupBuildSummaryGivenLookupDict`: the summary stored under
      the key, or nothing as soon as the group, the site or the build name
      level is missing. */
  function LookupBuildSummaryGivenLookupDict(key: BuildKey, idx: BuildLookup): (r: Option<Build>)
    ensures r.None? <==>
      || key.group !in idx
      || key.site !in idx[key.group]
      || key.buildname !in idx[key.group][key.site]
    ensures r.Some? ==> r.value == idx[key.group][key.site][key.buildname]
  {
    if key.group !in idx then None
    else if key.site !in idx[key.group] then None
    else if key.buildname !in idx[key.group][key.site] then None
    else Some(idx[key.group][key.site][key.buildname])
  }

  /** Every stored summary sits at the path of its own identity tuple. */
  predicate WellKeyed(idx: BuildLookup) {
    forall g, s, n ::
      g in idx && s in idx[g] && n in idx[g][s] ==> KeyOf(idx[g][s][n]) == BuildKey(g, s, n)
  }

  /** Every group level holds a site and every site level holds a build:
      levels are only created on the way to a stored summary. */
  predicate NoEmptyLevels(idx: BuildLookup) {
    && (forall g :: g in idx ==> |idx[g]| > 0)
    && (forall g, s :: g in idx && s in idx[g] ==> |idx[g][s]| > 0)
  }

  /** `a` and `b` answer every lookup alike. */
  ghost predicate SameAnswers(a: BuildLookup, b: BuildLookup) {
    forall key :: LookupBuildSummaryGivenLookupDict(key, a) == LookupBuildSummaryGivenLookupDict(key, b)
  }

  lemma LevelPresent(a: BuildLookup, b: BuildLookup, g: string, s: string)
    requires NoEmptyLevels(a) && SameAnswers(a, b)
    requires g in a && s in a[g]
    ensures g in b && s in b[g]
  {
    var n :| n in a[g][s];
    assert LookupBuildSummaryGivenLookupDict(BuildKey(g, s, n), b).Some?;
  }

  lemma SameSiteLevel(a: BuildLookup, b: BuildLookup, g: string, s: string)
    requires SameAnswers(a, b)
    requires g in a && s in a[g] && g in b && s in b[g]
    ensures a[g][s] == b[g][s]
  {
    forall n
      ensures (n in a[g][s] <==> n in b[g][s]) && (n in a[g][s] ==> a[g][s][n] == b[g][s][n])
    {
      assert LookupBuildSummaryGivenLookupDict(BuildKey(g, s, n), a) == LookupBuildSummaryGivenLookupDict(BuildKey(g, s, n), b);
    }
  }

  lemma SameGroupLevel(a: BuildLookup, b: BuildLookup, g: string)
    requires NoEmptyLevels(a) && NoEmptyLevels(b) && SameAnswers(a, b)
    requires g in a && g in b
    ensures a[g] == b[g]
  {
    SameSiteKeys(a, b, g);
    forall s | s in a[g]
      ensures a[g][s] == b[g][s]
    {
      SameSiteLevel(a, b, g, s);
    }
  }

  lemma SameSiteKeys(a: BuildLookup, b: BuildLookup, g: string)
    requires NoEmptyLevels(a) && NoEmptyLevels(b) && SameAnswers(a, b)
    requires g in a && g in b
    ensures a[g].Keys == b[g].Keys
  {
    forall s | s in a[g]
      ensures s in b[g]
    {
      LevelPresent(a, b, g, s);
    }
    forall s | s in b[g]
      ensures s in a[g]
    {
      LevelPresent(b, a, g, s);
    }
  }

  /** Two indexes without empty levels that answer every lookup alike are
      the same nested dictionary. */
  lemma LookupsDetermineIndex(a: BuildLookup, b: BuildLookup)
    requires NoEmptyLevels(a) && NoEmptyLevels(b)
    requires SameAnswers(a, b)
    ensures a == b
  {
    forall g | g in a
      ensures g in b && a[g] == b[g]
    {
      var s :| s in a[g];
      LevelPresent(a, b, g, s);
      SameGroupLevel(a, b, g);
    }
    forall g | g in b
      ensures g in a
    {
      var s :| s in b[g];
      LevelPresent(b, a, g, s);
    }
    assert a.Keys == b.Keys;
  }

  /** Insertion stores the summary under its own tuple only. */
  lemma InsertKeepsKeys(idx: BuildLookup, b: Build)
    requires WellKeyed(idx)
    ensures WellKeyed(Insert(idx, b))
  {
    var r := Insert(idx, b);
    forall g, s, n | g in r && s in r[g] && n in r[g][s]
      ensures KeyOf(r[g][s][n]) == BuildKey(g, s, n)
    {
      if g == b.group && s == b.site && n == b.buildname {
        assert r[g][s][n] == b;
      } else {
        assert r[g][s][n] == idx[g][s][n];
      }
    }
  }

  /** Insertion creates a level only together with the summary under it. */
  lemma InsertKeepsLevels(idx: BuildLookup, b: Build)
    requires NoEmptyLevels(idx)
    ensures NoEmptyLevels(Insert(idx, b))
  {
    var r := Insert(idx, b);
    forall g | g in r
      ensures |r[g]| > 0
    {
      if g == b.group {
        assert b.site in r[g];
      } else {
        assert r[g] == idx[g];
      }
    }
    forall g, s | g in r && s in r[g]
      ensures |r[g][s]| > 0
    {
      if g == b.group && s == b.site {
        assert b.buildname in r[g][s];
      } else {
        assert r[g][s] == idx[g][s];
      }
    }
  }

  /** Stores `b` at the path of its identity tuple, creating missing levels. */
  function Insert(idx: BuildLookup, b: Build): BuildLookup {
    var sites := if b.group in idx then idx[b.group] else map[];
    var names := if b.site in sites then sites[b.site] else map[];
    idx[b.group := sites[b.site := names[b.buildname := b]]]
  }

  /** An insertion answers its own key and leaves every other key's answer alone. */
  lemma LookupInsert(idx: BuildLookup, b: Build, key: BuildKey)
    ensures LookupBuildSummaryGivenLookupDict(key, Insert(idx, b)) ==
      if key == KeyOf(b) then Some(b) else LookupBuildSummaryGivenLookupDict(key, idx)
  {
  }

  /** Reference answer: the last summary of `bs` with identity `key`, if any. */
  function LastWithKey(bs: seq<Build>, key: BuildKey): (r: Option<Build>)
    ensures r.None? <==> forall i :: 0 <= i < |bs| ==> KeyOf(bs[i]) != key
    ensures r.Some? ==> exists i ::
      && 0 <= i < |bs|
      && bs[i] == r.value
      && KeyOf(bs[i]) == key
      && forall j :: i < j < |bs| ==> KeyOf(bs[j]) != key
  {
    if |bs| == 0 then None
    else if KeyOf(bs[|bs| - 1]) == key then Some(bs[|bs| - 1])
    else
      var r := LastWithKey(bs[..|bs| - 1], key);
      assert forall i :: 0 <= i < |bs| - 1 ==> bs[i] == bs[..|bs| - 1][i];
      r
  }

  /** Python's `createBuildLookupDict`: inserts the summaries in list order.
      Looking up any key in the result gives the last summary of the list
      with that identity tuple, and nothing for a tuple no summary has. */
  function CreateBuildLookupDict(bs: seq<Build>): (idx: BuildLookup)
    ensures WellKeyed(idx)
    ensures NoEmptyLevels(idx)
    ensures forall key :: LookupBuildSummaryGivenLookupDict(key, idx) == LastWithKey(bs, key)
  {
    if |bs| == 0 then map[]
    else
      var prev := CreateBuildLookupDict(bs[..|bs| - 1]);
      var idx := Insert(prev, bs[|bs| - 1]);
      InsertKeepsKeys(prev, bs[|bs| - 1]);
      InsertKeepsLevels(prev, bs[|bs| - 1]);
      forall key
        ensures LookupBuildSummaryGivenLookupDict(key, idx) == LastWithKey(bs, key)
      {
        LookupInsert(prev, bs[|bs| - 1], key);
      }
      idx
  }

  /** Indexing one more summary inserts it into the index of the others. */
  lemma CreateSnoc(bs: seq<Build>, b: Build)
    ensures CreateBuildLookupDict(bs + [b]) == Insert(CreateBuildLookupDict(bs), b)
  {
    assert (bs + [b])[..|bs|] == bs;
  }

  /** A summary no later summary shares its identity tuple with is found by
      that tuple; with unique tuples, every summary of the list is found. */
  lemma LookupFindsBuild(bs: seq<Build>, i: nat)
    requires i < |bs|
    requires forall j :: i < j < |bs| ==> KeyOf(bs[j]) != KeyOf(bs[i])
    ensures LookupBuildSummaryGivenLookupDict(KeyOf(bs[i]), CreateBuildLookupDict(bs)) == Some(bs[i])
  {
    var r := LastWithKey(bs, KeyOf(bs[i]));
    var i' :| 0 <= i' < |bs| && bs[i'] == r.value && KeyOf(bs[i']) == KeyOf(bs[i])
      && forall j :: i' < j < |bs| ==> KeyOf(bs[j]) != KeyOf(bs[i]);
    assert i' == i;
  }

  /** A tuple no summary has is not found. */
  lemma LookupMissesAbsentKey(bs: seq<Build>, key: BuildKey)
    requires forall i :: 0 <= i < |bs| ==> KeyOf(bs[i]) != key
    ensures LookupBuildSummaryGivenLookupDict(key, CreateBuildLookupDict(bs)).None?
  {
  }
}
