/**
 * The crate root of `saba_core` carries an earlier copy of `Url`. It splits
 * exactly as `saba_core::url` does; only the query field is named
 * `searchPath` and its accessor `search_path`. This module models that copy
 * as written and proves it agrees with `SabaCoreUrl`, the url.rs copy that
 * carries the crate's unit tests, on every input.
 */
module SabaCore {
  import opened Wrappers
  import opened RustStr
  import opened UrlLayout
  import SabaCoreUrl

  const Scheme: string := "http://"
  const DefaultPort: string := "80"
  const SchemeError: string := "http:// から始まるURLを指定してください"

  /** This copy spells its constants exactly as url.rs does. */
  lemma SameConstants()
    ensures Scheme == SabaCoreUrl.Scheme && DefaultPort == SabaCoreUrl.DefaultPort
    ensures SchemeError == SabaCoreUrl.SchemeError
  {
  }

  /** The value of this copy's `Url`. */
  datatype UrlRecord = UrlRecord(url: string, host: string, port: string, path: string, searchPath: string)

  /** A url.rs record as this copy's record: `searchpart` becomes `searchPath`. */
  function FromUrlRs(r: SabaCoreUrl.UrlRecord): UrlRecord {
    UrlRecord(r.url, r.host, r.port, r.path, r.searchpart)
  }

  /** `is_http`: the stored string starts with `http://`. */
  predicate IsHttp(url: string) {
    StartsWith(url, Scheme)
  }

  /** `url.trim_start_matches("http://").splitn(2, '/')`, as every `extract_*` starts. */
  function UrlParts(url: string): (parts: seq<string>)
    ensures 1 <= |parts| <= 2
  {
    SplitN2(TrimStartMatches(url, Scheme), '/')
  }

  /** This copy cuts the remainder exactly as url.rs does. */
  lemma UrlPartsAgrees(url: string)
    ensures UrlParts(url) == SabaCoreUrl.UrlParts(url)
  {
    SameConstants();
  }

  /** `extract_host`, as in url.rs. */
  function ExtractHost(url: string): string
  {
    var parts := UrlParts(url);
    match Find(parts[0], ':')
    case Some(index) => parts[0][..index]
    case None => parts[0]
  }

  /** `extract_port`, as in url.rs. */
  function ExtractPort(url: string): string
  {
    var parts := UrlParts(url);
    match Find(parts[0], ':')
    case Some(index) => parts[0][index + 1..]
    case None => DefaultPort
  }

  /** `extract_path`, as in url.rs. */
  function ExtractPath(url: string): string
  {
    var parts := UrlParts(url);
    if |parts| < 2 then "" else SplitN2(parts[1], '?')[0]
  }

  /** `extract_search_path`: url.rs's `extract_searchpart` under another name. */
  function ExtractSearchPath(url: string): string
  {
    var parts := UrlParts(url);
    if |parts| < 2 then ""
    else
      var pathAndSearchPath := SplitN2(parts[1], '?');
      if |pathAndSearchPath| < 2 then "" else pathAndSearchPath[1]
  }

  /** What this copy's `parse` returns for a `Url` whose stored string is `url`. */
  function Parsed(url: string): (r: Result<UrlRecord, string>)
    ensures r.Err? <==> !StartsWith(url, Scheme)
    ensures r.Err? ==> r.error == SchemeError
    ensures r.Ok? ==> r.value.url == url
  {
    if !IsHttp(url) then Err(SchemeError)
    else Ok(UrlRecord(url, ExtractHost(url), ExtractPort(url), ExtractPath(url), ExtractSearchPath(url)))
  }

  /** `extract_host` here computes what url.rs's does. */
  lemma HostAgrees(url: string)
    ensures ExtractHost(url) == SabaCoreUrl.ExtractHost(url)
  {
    UrlPartsAgrees(url);
  }

  /** `extract_port` here computes what url.rs's does, `"80"` included. */
  lemma PortAgrees(url: string)
    ensures ExtractPort(url) == SabaCoreUrl.ExtractPort(url)
  {
    UrlPartsAgrees(url);
    SameConstants();
  }

  /** `extract_path` here computes what url.rs's does. */
  lemma PathAgrees(url: string)
    ensures ExtractPath(url) == SabaCoreUrl.ExtractPath(url)
  {
    UrlPartsAgrees(url);
  }

  /** `extract_search_path` computes what url.rs's `extract_searchpart` does. */
  lemma SearchPathAgrees(url: string)
    ensures ExtractSearchPath(url) == SabaCoreUrl.ExtractSearchpart(url)
  {
    UrlPartsAgrees(url);
  }

  /**
   * Both copies of `parse` fail on the same strings, with the same message,
   * and otherwise report the same four fields.
   */
  lemma AgreesWithUrlRs(url: string)
    ensures SabaCoreUrl.Parsed(url).Err? ==> Parsed(url) == Err(SabaCoreUrl.SchemeError)
    ensures SabaCoreUrl.Parsed(url).Ok? ==> Parsed(url) == Ok(FromUrlRs(SabaCoreUrl.Parsed(url).value))
  {
    SameConstants();
    HostAgrees(url);
    PortAgrees(url);
    PathAgrees(url);
    SearchPathAgrees(url);
  }

  /** The url.rs `UrlRecord`, renamed: defaults filled in from a layout. */
  function RecordOf(url: string, l: Layout): UrlRecord {
    FromUrlRs(SabaCoreUrl.RecordOf(url, l))
  }

  class Url {
    var url: string
    var host: string
    var port: string
    var path: string
    var searchPath: string

    /** The current field values, as `clone()` copies them. */
    function Record(): UrlRecord
      reads this
    {
      UrlRecord(url, host, port, path, searchPath)
    }

    /** `Url::new`: keeps the string verbatim, every derived field empty. */
    constructor (url: string)
      ensures Record() == UrlRecord(url, "", "", "", "")
    {
      this.url := url;
      host, port, path, searchPath := "", "", "", "";
    }

    /**
     * `parse`: fails, changing nothing, when the string lacks the `http://`
     * prefix; otherwise sets the four derived fields and returns a copy of
     * the whole record.
     */
    method Parse() returns (r: Result<UrlRecord, string>)
      modifies this
      ensures r == Parsed(old(url))
      ensures r.Err? <==> !StartsWith(old(url), Scheme)
      ensures r.Err? ==> r.error == SchemeError && unchanged(this)
      ensures r.Ok? ==> url == old(url) && Record() == r.value
    {
      if !IsHttp(url) {
        return Err(SchemeError);
      }
      host, port, path, searchPath := ExtractHost(url), ExtractPort(url), ExtractPath(url), ExtractSearchPath(url);
      return Ok(Record());
    }

    /** `host()`: a copy of the host field. */
    method Host() returns (h: string)
      ensures h == host
    {
      h := host;
    }

    /** `port()`: a copy of the port field. */
    method Port() returns (p: string)
      ensures p == port
    {
      p := port;
    }

    /** `path()`: a copy of the path field. */
    method Path() returns (p: string)
      ensures p == path
    {
      p := path;
    }

    /** `search_path()`: a copy of the `searchPath` field. */
    method SearchPath() returns (q: string)
      ensures q == searchPath
    {
      q := searchPath;
    }
  }

  /**
   * This copy's fields are those of the one well-formed layout of the text
   * after `http://`: the host before the authority's first `:`, the port
   * after it or `"80"`, the path before the rest's first `?` and the search
   * path after it, with `""` for what is absent.
   */
  lemma ParsedFromLayout(url: string, l: Layout)
    requires IsHttp(url) && WellFormed(l) && Render(l) == TrimStartMatches(url, Scheme)
    ensures Parsed(url) == Ok(RecordOf(url, l))
  {
    SameConstants();
    SabaCoreUrl.ParsedFromLayout(url, l);
    AgreesWithUrlRs(url);
  }

  /**
   * This copy's host is its authority up to the first `:`, free of `:` and
   * `/`; its port is what follows that `:`, or `"80"` without one.
   */
  lemma HostAndPort(url: string)
    ensures var host, port, authority := ExtractHost(url), ExtractPort(url), UrlParts(url)[0];
      ':' !in host && '/' !in host &&
      (':' !in authority ==> host == authority && port == DefaultPort) &&
      (':' in authority ==> authority == host + ":" + port)
  {
    SameConstants();
    UrlPartsAgrees(url);
    HostAgrees(url);
    PortAgrees(url);
    SabaCoreUrl.ExtractHostSplits(url);
    SabaCoreUrl.ExtractPortSplits(url);
  }

  /**
   * Without a `/` this copy's path and search path are empty; with one, the
   * rest after it is the path, then `"?" searchPath` when it held a `?`.
   */
  lemma PathAndSearchPath(url: string)
    requires IsHttp(url)
    ensures var r, parts := Parsed(url).value, UrlParts(url);
      (|parts| == 1 ==> r.path == "" && r.searchPath == "") &&
      (|parts| == 2 && '?' !in parts[1] ==> r.path == parts[1] && r.searchPath == "") &&
      (|parts| == 2 && '?' in parts[1] ==> parts[1] == r.path + "?" + r.searchPath && '?' !in r.path)
  {
    AgreesWithUrlRs(url);
  }
}
