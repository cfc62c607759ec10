/** The four dashboard URL builders.  Each glues the dashboard base URL, a
    fixed path, and the query `project=P&date=D&F` where the filter fields
    `F` pass through unchanged and nothing is escaped.
 */
module QueryUrls {
  import opened Results
  import opened Text

  /** Machine-readable index query. */
  const IndexQueryPath := "/api/v1/index.php"
  /** Human-browsable index page. */
  const IndexBrowserPath := "/index.php"
  /** Machine-readable test query. */
  const TestsQueryPath := "/api/v1/queryTests.php"
  /** Human-browsable test page. */
  const TestsBrowserPath := "/queryTests.php"

  function QueryString(project: string, date: string, filterFields: string): string {
    "project=" + project + "&date=" + date + "&" + filterFields
  }

  /** Reads `key` + value + `&` off the front of `s`: the value runs to the
      first `&`; returns it with what follows that `&`. */
  function TakeField(s: string, key: string): Option<(string, string)> {
    if |s| < |key| || s[..|key|] != key then None
    else
      var after := s[|key|..];
      var i := IndexOf(after, '&');
      if i == |after| then None else Some((after[..i], after[i + 1..]))
  }

  lemma TakeFieldOf(key: string, value: string, rest: string)
    requires '&' !in value
    ensures TakeField(key + value + "&" + rest, key) == Some((value, rest))
  {
    var s := key + value + "&" + rest;
    var after := value + ['&'] + rest;
    assert s == key + after;
    assert s[..|key|] == key && s[|key|..] == after;
    IndexOfFirst(value, rest, '&');
    assert after[..|value|] == value && after[|value| + 1..] == rest;
  }

  /** Reads a query string back into (project, date, filter fields): the
      project runs to the first `&`, the date to the next one, and the filter
      fields are the rest. */
  function ParseQueryString(q: string): Option<(string, string, string)> {
    match TakeField(q, "project=")
    case None => None
    case Some((project, rest)) =>
      match TakeField(rest, "date=")
      case None => None
      case Some((date, filterFields)) => Some((project, date, filterFields))
  }

  /** The query string is decodable whenever the project and the date hold no `&`. */
  lemma QueryStringRoundTrip(project: string, date: string, filterFields: string)
    requires '&' !in project && '&' !in date
    ensures ParseQueryString(QueryString(project, date, filterFields)) == Some((project, date, filterFields))
  {
    var rest := "date=" + date + "&" + filterFields;
    assert QueryString(project, date, filterFields) == "project=" + project + "&" + rest;
    TakeFieldOf("project=", project, rest);
    TakeFieldOf("date=", date, filterFields);
  }

  /** Since nothing is escaped, an `&` inside a field makes two different
      requests produce the same query string. */
  lemma UnescapedFieldsAmbiguous()
    ensures QueryString("a&date=b", "c", "d") == QueryString("a", "b&date=c", "d")
  {
  }

  /** Splits `url` into the part before `?` that must equal `prefix` and the decoded query. */
  function ParseUrl(url: string, prefix: string): Option<(string, string, string)> {
    if |url| <= |prefix| || url[..|prefix| + 1] != prefix + "?" then None
    else ParseQueryString(url[|prefix| + 1..])
  }

  /** The URL `base + path + "?" + query`; decodes back to its inputs when
      the project and date hold no `&`. */
  function CDashUrl(base: string, path: string, project: string, date: string, filterFields: string): (r: string)
    ensures |r| > |base + path| && r[..|base + path| + 1] == base + path + "?"
    ensures '&' !in project && '&' !in date ==>
      ParseUrl(r, base + path) == Some((project, date, filterFields))
  {
    var q := QueryString(project, date, filterFields);
    var r := base + path + "?" + q;
    assert r[..|base + path| + 1] == base + path + "?";
    assert r[|base + path| + 1..] == q;
    if '&' !in project && '&' !in date then
      QueryStringRoundTrip(project, date, filterFields);
      r
    else r
  }

  function GetCDashIndexQueryUrl(base: string, project: string, date: string, filterFields: string): (r: string)
    ensures |r| > |base + IndexQueryPath| && r[..|base + IndexQueryPath| + 1] == base + IndexQueryPath + "?"
    ensures '&' !in project && '&' !in date ==>
      ParseUrl(r, base + IndexQueryPath) == Some((project, date, filterFields))
  {
    CDashUrl(base, IndexQueryPath, project, date, filterFields)
  }

  function GetCDashIndexBrowserUrl(base: string, project: string, date: string, filterFields: string): (r: string)
    ensures |r| > |base + IndexBrowserPath| && r[..|base + IndexBrowserPath| + 1] == base + IndexBrowserPath + "?"
    ensures '&' !in project && '&' !in date ==>
      ParseUrl(r, base + IndexBrowserPath) == Some((project, date, filterFields))
  {
    CDashUrl(base, IndexBrowserPath, project, date, filterFields)
  }

  function GetCDashQueryTestsQueryUrl(base: string, project: string, date: string, filterFields: string): (r: string)
    ensures |r| > |base + TestsQueryPath| && r[..|base + TestsQueryPath| + 1] == base + TestsQueryPath + "?"
    ensures '&' !in project && '&' !in date ==>
      ParseUrl(r, base + TestsQueryPath) == Some((project, date, filterFields))
  {
    CDashUrl(base, TestsQueryPath, project, date, filterFields)
  }

  function GetCDashQueryTestsBrowserUrl(base: string, project: string, date: string, filterFields: string): (r: string)
    ensures |r| > |base + TestsBrowserPath| && r[..|base + TestsBrowserPath| + 1] == base + TestsBrowserPath + "?"
    ensures '&' !in project && '&' !in date ==>
      ParseUrl(r, base + TestsBrowserPath) == Some((project, date, filterFields))
  {
    CDashUrl(base, TestsBrowserPath, project, date, filterFields)
  }
}
