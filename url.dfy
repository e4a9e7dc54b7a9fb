/**
 * `saba_core::url`: the `Url` type that splits an `http://` URL into host,
 * port, path and search part by literal, first-occurrence splits.
 */
module SabaCoreUrl {
  import opened Wrappers
  import opened RustStr
  import opened UrlLayout

  /** The only scheme `parse` accepts. */
  const Scheme: string := "http://"

  /** The port reported when the authority names none. */
  const DefaultPort: string := "80"

  /** The fixed message `parse` fails with ("give a URL that starts with http://"). */
  const SchemeError: string := "http:// から始まるURLを指定してください"

  /** The value of a `Url`: what `clone()` copies and `PartialEq` compares. */
  datatype UrlRecord = UrlRecord(url: string, host: string, port: string, path: string, searchpart: string)

  /** `is_http`: the stored string starts with `http://`. */
  predicate IsHttp(url: string) {
    StartsWith(url, Scheme)
  }

  /** `url.trim_start_matches("http://")`: the text every `extract_*` starts from. */
  function Remainder(url: string): string {
    TrimStartMatches(url, Scheme)
  }

  /**
   * The remainder never starts with `http://` itself, and for an `http://`
   * URL it is at least that prefix shorter than the URL.
   */
  lemma RemainderIsTrimmed(url: string)
    ensures !StartsWith(Remainder(url), Scheme)
    ensures IsHttp(url) ==> |Remainder(url)| <= |url| - |Scheme| && url[|url| - |Remainder(url)|..] == Remainder(url)
  {
    TrimStartMatchesSuffix(url, Scheme);
    if IsHttp(url) {
      TrimStartMatchesSuffix(url[|Scheme|..], Scheme);
    }
  }

  /**
   * `url_parts`: the remainder cut at its first `/` into the authority and,
   * when there is a `/`, the rest after it.
   */
  function UrlParts(url: string): (parts: seq<string>)
    ensures 1 <= |parts| <= 2
  {
    SplitN2(Remainder(url), '/')
  }

  /**
   * The authority holds no `/`; there is a second part exactly when the
   * remainder holds a `/`, and authority, `/` and rest spell the remainder.
   */
  lemma UrlPartsSplits(url: string)
    ensures var parts := UrlParts(url);
      '/' !in parts[0] &&
      (|parts| == 1 <==> '/' !in Remainder(url)) &&
      (|parts| == 1 ==> parts[0] == Remainder(url)) &&
      (|parts| == 2 ==> Remainder(url) == parts[0] + "/" + parts[1])
  {
  }

  /** `extract_host`. */
  function ExtractHost(url: string): string {
    var parts := UrlParts(url);
    match Find(parts[0], ':')
    case Some(index) => parts[0][..index]
    case None => parts[0]
  }

  /** `extract_port`. */
  function ExtractPort(url: string): string {
    var parts := UrlParts(url);
    match Find(parts[0], ':')
    case Some(index) => parts[0][index + 1..]
    case None => DefaultPort
  }

  /** `extract_path`. */
  function ExtractPath(url: string): string {
    var parts := UrlParts(url);
    if |parts| < 2 then "" else SplitN2(parts[1], '?')[0]
  }

  /** `extract_searchpart`. */
  function ExtractSearchpart(url: string): string {
    var parts := UrlParts(url);
    if |parts| < 2 then ""
    else
      var pathAndSearchpart := SplitN2(parts[1], '?');
      if |pathAndSearchpart| < 2 then "" else pathAndSearchpart[1]
  }

  /**
   * The host is the authority up to its first `:`, or all of it when it
   * holds no `:`; it contains neither `:` nor `/`.
   */
  lemma ExtractHostSplits(url: string)
    ensures var host, authority := ExtractHost(url), UrlParts(url)[0];
      ':' !in host && '/' !in host &&
      (':' !in authority ==> host == authority) &&
      (':' in authority ==> |host| < |authority| && authority[..|host| + 1] == host + ":")
  {
    var authority := UrlParts(url)[0];
    UrlPartsSplits(url);
    assert '/' !in authority;
    match Find(authority, ':')
    case Some(index) =>
      SplitAround(authority, index);
      assert ExtractHost(url) == authority[..index];
    case None =>
      assert ExtractHost(url) == authority;
  }

  /**
   * The port is the authority after its first `:`, so that host, `:` and
   * port spell the authority again; it is `"80"` when there is no `:`.
   */
  lemma ExtractPortSplits(url: string)
    ensures var port, authority := ExtractPort(url), UrlParts(url)[0];
      '/' !in port &&
      (':' !in authority ==> port == DefaultPort) &&
      (':' in authority ==> authority == ExtractHost(url) + ":" + port)
  {
    var authority := UrlParts(url)[0];
    UrlPartsSplits(url);
    assert '/' !in authority;
    match Find(authority, ':')
    case Some(index) =>
      SplitAround(authority, index);
      assert ExtractHost(url) == authority[..index];
      assert ExtractPort(url) == authority[index + 1..];
    case None =>
      assert ExtractPort(url) == DefaultPort;
  }

  /**
   * The path is `""` without a `/`; otherwise the rest up to its first
   * `?`, or all of it when it holds no `?`. It never contains a `?`.
   */
  lemma ExtractPathSplits(url: string)
    ensures var path, parts := ExtractPath(url), UrlParts(url);
      '?' !in path &&
      (|parts| == 1 ==> path == "") &&
      (|parts| == 2 && '?' !in parts[1] ==> path == parts[1])
  {
  }

  /**
   * The search part is `""` without a `/` or without a `?` after it;
   * otherwise the rest after its first `?`, so that path, `?` and search
   * part spell the rest again.
   */
  lemma ExtractSearchpartSplits(url: string)
    ensures var searchpart, parts := ExtractSearchpart(url), UrlParts(url);
      (|parts| == 1 ==> searchpart == "") &&
      (|parts| == 2 && '?' !in parts[1] ==> searchpart == "") &&
      (|parts| == 2 && '?' in parts[1] ==> parts[1] == ExtractPath(url) + "?" + searchpart)
  {
  }

  /** What `parse` returns for a `Url` whose stored string is `url`. */
  function Parsed(url: string): (r: Result<UrlRecord, string>)
    ensures r.Err? <==> !StartsWith(url, Scheme)
    ensures r.Err? ==> r.error == SchemeError
    ensures r.Ok? ==> r.value.url == url
  {
    if !IsHttp(url) then Err(SchemeError)
    else Ok(UrlRecord(url, ExtractHost(url), ExtractPort(url), ExtractPath(url), ExtractSearchpart(url)))
  }

  /** The record a layout of the remainder stands for, defaults filled in. */
  function RecordOf(url: string, l: Layout): UrlRecord {
    UrlRecord(
      url,
      l.authority.host,
      l.authority.port.GetOr(DefaultPort),
      if l.target.None? then "" else l.target.value.path,
      if l.target.None? then "" else l.target.value.query.GetOr(""))
  }

  /** The record that a Url object holds. */
  class Url {
    var url: string
    var host: string
    var port: string
    var path: string
    var searchpart: string

    /** The current field values, as `clone()` copies them. */
    function Record(): UrlRecord
      reads this
    {
      UrlRecord(url, host, port, path, searchpart)
    }

    /** `Url::new`: keeps the string verbatim, every derived field empty. */
    constructor (url: string)
      ensures Record() == UrlRecord(url, "", "", "", "")
    {
      this.url := url;
      host, port, path, searchpart := "", "", "", "";
    }

    /**
     * `parse`: fails, changing nothing, when the string lacks the `http://`
     * prefix; otherwise sets the four derived fields and returns a copy of
     * the whole record.
     */
    method Parse() returns (r: Result<UrlRecord, string>)
      modifies this
      ensures r == Parsed(old(url))
      ensures r.Err? <==> !StartsWith(old(url), Scheme)
      ensures r.Err? ==> r.error == SchemeError && unchanged(this)
      ensures r.Ok? ==> url == old(url) && Record() == r.value
    {
      if !IsHttp(url) {
        return Err(SchemeError);
      }
      host, port, path, searchpart := ExtractHost(url), ExtractPort(url), ExtractPath(url), ExtractSearchpart(url);
      return Ok(Record());
    }

    /** `host()`: a copy of the host field. */
    method Host() returns (h: string)
      ensures h == host
    {
      h := host;
    }

    /** `port()`: a copy of the port field. */
    method Port() returns (p: string)
      ensures p == port
    {
      p := port;
    }

    /** `path()`: a copy of the path field. */
    method Path() returns (p: string)
      ensures p == path
    {
      p := path;
    }

    /** `searchpart()`: a copy of the search part field. */
    method Searchpart() returns (q: string)
      ensures q == searchpart
    {
      q := searchpart;
    }
  }

  /** `Url::new(url).parse()`, the way every caller uses the type. */
  method NewAndParse(url: string) returns (r: Result<UrlRecord, string>)
    ensures r == Parsed(url)
  {
    var u := new Url(url);
    r := u.Parse();
  }

  /** Parsing a second time gives the first result again and leaves the record as it was. */
  method ParseTwice(u: Url) returns (first: Result<UrlRecord, string>, second: Result<UrlRecord, string>)
    modifies u
    ensures first == second == Parsed(old(u.url))
    ensures first.Ok? ==> u.Record() == first.value
    ensures first.Err? ==> unchanged(u)
  {
    first := u.Parse();
    second := u.Parse();
  }

  /** `url_parts` is the remainder's layout, cut at the same first `/`. */
  lemma UrlPartsDecompose(url: string)
    ensures var l, parts := Decompose(Remainder(url)), UrlParts(url);
      l.authority == DecomposeAuthority(parts[0]) &&
      (l.target.None? <==> |parts| == 1) &&
      (|parts| == 2 ==> l.target == Some(DecomposeTarget(parts[1])))
  {
  }

  /**
   * The fields `parse` extracts are exactly those of the one well-formed
   * layout of the remainder.
   */
  lemma ParsedIsDecompose(url: string)
    requires IsHttp(url)
    ensures Parsed(url) == Ok(RecordOf(url, Decompose(Remainder(url))))
  {
    UrlPartsDecompose(url);
  }

  /**
   * Whatever well-formed layout renders as the remainder, `parse` reports
   * its host, its port (or `"80"`), its path and its query.
   */
  lemma ParsedFromLayout(url: string, l: Layout)
    requires IsHttp(url) && WellFormed(l) && Render(l) == Remainder(url)
    ensures Parsed(url) == Ok(RecordOf(url, l))
  {
    ParsedIsDecompose(url);
    RenderInjective(l, Decompose(Remainder(url)));
  }

  /**
   * The remainder is rebuilt from the four fields and the separators that
   * were present: `host`, then `":" port` when the authority held a `:`,
   * then `"/" path` when there was a `/`, then `"?" searchpart` when the
   * text after that `/` held a `?`.
   */
  lemma Reconstruction(url: string)
    requires IsHttp(url)
    ensures var s, r := Remainder(url), Parsed(url).value;
      var hasPort := ':' in UrlParts(url)[0];
      var hasQuery := |UrlParts(url)| == 2 && '?' in UrlParts(url)[1];
      s == r.host
        + (if hasPort then ":" + r.port else "")
        + (if |UrlParts(url)| == 2 then "/" + r.path else "")
        + (if hasQuery then "?" + r.searchpart else "")
  {
    ParsedIsDecompose(url);
    UrlPartsDecompose(url);
    RenderPieces(Decompose(Remainder(url)));
  }

  /** Behind one or more copies of `http://`, the remainder is the text after all of them. */
  lemma RemainderOfRepeatedScheme(k: nat, s: string)
    requires k >= 1 && !StartsWith(s, Scheme)
    ensures IsHttp(Repeat(Scheme, k) + s) && Remainder(Repeat(Scheme, k) + s) == s
  {
    RepeatStartsWith(Scheme, k, s);
    TrimStartMatchesRepeat(Scheme, k, s);
  }

  /**
   * Parsing a rendered layout behind one or more copies of `http://` gives
   * back that layout's fields: every leading copy is stripped, so the
   * rendered text must not itself start with `http://`.
   */
  lemma ParseRendered(k: nat, l: Layout)
    requires k >= 1 && WellFormed(l) && !StartsWith(Render(l), Scheme)
    ensures Parsed(Repeat(Scheme, k) + Render(l)) == Ok(RecordOf(Repeat(Scheme, k) + Render(l), l))
  {
    RemainderOfRepeatedScheme(k, Render(l));
    ParsedFromLayout(Repeat(Scheme, k) + Render(l), l);
  }

  // The unit tests of url.rs (url.rs:122-211). Each input is written as the concatenation of
  // its pieces, which spells the same string as the test's literal.

  /** `test_url_host`: no port, no path. */
  lemma ExampleHost()
    ensures var url := Scheme + "example.com";
      Parsed(url) == Ok(UrlRecord(url, "example.com", "80", "", ""))
  {
    var l := Layout(Authority("example.com", None), None);
    assert Render(l)[0] == 'e';
    assert Repeat(Scheme, 1) + Render(l) == Scheme + "example.com";
    ParseRendered(1, l);
  }

  /** `test_url_host_port`: an explicit port. */
  lemma ExampleHostPort()
    ensures var url := Scheme + "example.com" + ":" + "8080";
      Parsed(url) == Ok(UrlRecord(url, "example.com", "8080", "", ""))
  {
    var l := Layout(Authority("example.com", Some("8080")), None);
    assert Render(l)[0] == 'e';
    assert Repeat(Scheme, 1) + Render(l) == Scheme + "example.com" + ":" + "8080";
    ParseRendered(1, l);
  }

  /** `test_url_host_port_path`: a port and a path. */
  lemma ExampleHostPortPath()
    ensures var url := Scheme + "example.com" + ":" + "8080" + "/" + "path";
      Parsed(url) == Ok(UrlRecord(url, "example.com", "8080", "path", ""))
  {
    var l := Layout(Authority("example.com", Some("8080")), Some(Target("path", None)));
    assert Render(l)[0] == 'e';
    assert Repeat(Scheme, 1) + Render(l) == Scheme + "example.com" + ":" + "8080" + "/" + "path";
    ParseRendered(1, l);
  }

  /** `test_url_host_path`: a path and the default port. */
  lemma ExampleHostPath()
    ensures var url := Scheme + "example.com" + "/" + "path";
      Parsed(url) == Ok(UrlRecord(url, "example.com", "80", "path", ""))
  {
    var l := Layout(Authority("example.com", None), Some(Target("path", None)));
    assert Render(l)[0] == 'e';
    assert Repeat(Scheme, 1) + Render(l) == Scheme + "example.com" + "/" + "path";
    ParseRendered(1, l);
  }

  /** `test_url_hostpath_searchpath`: a path and a search part. */
  lemma ExampleHostPathSearchpart()
    ensures var url := Scheme + "example.com" + "/" + "path" + "?" + "search=hoge&key=piyo";
      Parsed(url) == Ok(UrlRecord(url, "example.com", "80", "path", "search=hoge&key=piyo"))
  {
    var l := Layout(Authority("example.com", None), Some(Target("path", Some("search=hoge&key=piyo"))));
    assert Render(l)[0] == 'e';
    assert Repeat(Scheme, 1) + Render(l) == Scheme + "example.com" + "/" + "path" + "?" + "search=hoge&key=piyo";
    ParseRendered(1, l);
  }

  /** `test_no_scheme` and `test_unsupported_scheme`: both fail with the fixed message. */
  lemma ExampleNoScheme()
    ensures Parsed("example.com") == Err(SchemeError)
    ensures Parsed("ftp://example.com") == Err(SchemeError)
  {
    assert "example.com"[..|Scheme|][0] != Scheme[0];
    assert "ftp://example.com"[..|Scheme|][0] != Scheme[0];
  }

  // Edge cases the unit tests do not cover.

  /** A `:` with nothing after it gives an empty port, not the default. */
  lemma ExampleEmptyPort()
    ensures var url := Scheme + "h" + ":";
      Parsed(url) == Ok(UrlRecord(url, "h", "", "", ""))
  {
    var l := Layout(Authority("h", Some("")), None);
    assert Repeat(Scheme, 1) + Render(l) == Scheme + "h" + ":";
    ParseRendered(1, l);
  }

  /** A repeated scheme is stripped as a whole: `http://http://x` has host `x`. */
  lemma ExampleRepeatedScheme()
    ensures var url := Scheme + Scheme + "x";
      Parsed(url) == Ok(UrlRecord(url, "x", "80", "", ""))
  {
    var l := Layout(Authority("x", None), None);
    assert Repeat(Scheme, 2) + Render(l) == Scheme + Scheme + "x";
    ParseRendered(2, l);
  }

  /** Without a `/`, a `?` stays in the host and there is no search part. */
  lemma ExampleQueryWithoutSlash()
    ensures var url := Scheme + "h?q";
      Parsed(url) == Ok(UrlRecord(url, "h?q", "80", "", ""))
  {
    var l := Layout(Authority("h?q", None), None);
    assert Repeat(Scheme, 1) + Render(l) == Scheme + "h?q";
    ParseRendered(1, l);
  }
}
