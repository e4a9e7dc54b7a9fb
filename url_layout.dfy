/**
 * The shape the URL splitter reads into the text after `http://`:
 *
 *     host [ ":" port ] [ "/" path [ "?" searchpart ] ]
 *
 * `Render` writes a layout out as text and `Decompose` reads text back into
 * a layout by first-occurrence splits. The two are inverse: every text has
 * exactly one well-formed layout. This is the reference the splitter's
 * field extraction is proved against.
 */
module UrlLayout {
  import opened Wrappers
  import opened RustStr

  /** `host[:port]`, the part before the first `/`. */
  datatype Authority = Authority(host: string, port: Option<string>)

  /** `path[?query]`, the part after the first `/`. */
  datatype Target = Target(path: string, query: Option<string>)

  /** An authority, and a target when the text holds a `/`. */
  datatype Layout = Layout(authority: Authority, target: Option<Target>)

  /** The separators can be read back: the host holds no `:` and no `/`, the port no `/`. */
  predicate WellFormedAuthority(a: Authority) {
    ':' !in a.host && '/' !in a.host && (a.port.Some? ==> '/' !in a.port.value)
  }

  /** The path holds no `?`; the query may hold anything. */
  predicate WellFormedTarget(t: Target) {
    '?' !in t.path
  }

  predicate WellFormed(l: Layout) {
    WellFormedAuthority(l.authority) && (l.target.Some? ==> WellFormedTarget(l.target.value))
  }

  function RenderAuthority(a: Authority): string {
    if a.port.None? then a.host else a.host + ":" + a.port.value
  }

  function RenderTarget(t: Target): string {
    if t.query.None? then t.path else t.path + "?" + t.query.value
  }

  function Render(l: Layout): string {
    if l.target.None? then RenderAuthority(l.authority)
    else RenderAuthority(l.authority) + "/" + RenderTarget(l.target.value)
  }

  /** A layout written out piece by piece, each separator with the part it introduces. */
  lemma RenderPieces(l: Layout)
    ensures Render(l) ==
      l.authority.host
      + (if l.authority.port.Some? then ":" + l.authority.port.value else "")
      + (if l.target.Some? then "/" + l.target.value.path else "")
      + (if l.target.Some? && l.target.value.query.Some? then "?" + l.target.value.query.value else "")
  {
    if l.target.Some? && l.target.value.query.Some? {
      var t := l.target.value;
      assert RenderTarget(t) == t.path + "?" + t.query.value;
      assert "/" + RenderTarget(t) == "/" + t.path + "?" + t.query.value;
    }
  }

  /** Cuts an authority at its first `:`. */
  function DecomposeAuthority(s: string): (a: Authority)
    ensures ':' !in a.host && RenderAuthority(a) == s
    ensures a.port.None? <==> ':' !in s
    ensures '/' !in s ==> WellFormedAuthority(a)
  {
    match Find(s, ':')
    case None => Authority(s, None)
    case Some(i) =>
      assert s == s[..i] + ":" + s[i + 1..];
      Authority(s[..i], Some(s[i + 1..]))
  }

  /** Cuts a target at its first `?`. */
  function DecomposeTarget(s: string): (t: Target)
    ensures WellFormedTarget(t) && RenderTarget(t) == s
    ensures t.query.None? <==> '?' !in s
  {
    match Find(s, '?')
    case None => Target(s, None)
    case Some(i) =>
      assert s == s[..i] + "?" + s[i + 1..];
      Target(s[..i], Some(s[i + 1..]))
  }

  /** Cuts text at its first `/`, then each side at its own separator. */
  function Decompose(s: string): (l: Layout)
    ensures WellFormed(l) && Render(l) == s
    ensures l.target.None? <==> '/' !in s
  {
    match Find(s, '/')
    case None => Layout(DecomposeAuthority(s), None)
    case Some(i) =>
      assert s == s[..i] + "/" + s[i + 1..];
      Layout(DecomposeAuthority(s[..i]), Some(DecomposeTarget(s[i + 1..])))
  }

  lemma DecomposeRenderAuthority(a: Authority)
    requires WellFormedAuthority(a)
    ensures DecomposeAuthority(RenderAuthority(a)) == a
  {
    if a.port.Some? {
      FindAfterPrefix(a.host, ':', a.port.value);
      assert RenderAuthority(a) == a.host + [':'] + a.port.value;
      assert (a.host + [':'] + a.port.value)[..|a.host|] == a.host;
    } else {
      assert RenderAuthority(a) == a.host;
    }
  }

  lemma DecomposeRenderTarget(t: Target)
    requires WellFormedTarget(t)
    ensures DecomposeTarget(RenderTarget(t)) == t
  {
    if t.query.Some? {
      FindAfterPrefix(t.path, '?', t.query.value);
      assert RenderTarget(t) == t.path + ['?'] + t.query.value;
      assert (t.path + ['?'] + t.query.value)[..|t.path|] == t.path;
    } else {
      assert RenderTarget(t) == t.path;
    }
  }

  /** Reading back a rendered well-formed layout gives that layout. */
  lemma DecomposeRender(l: Layout)
    requires WellFormed(l)
    ensures Decompose(Render(l)) == l
  {
    var auth := RenderAuthority(l.authority);
    assert '/' !in auth by {
      if l.authority.port.Some? {
        assert auth == l.authority.host + [':'] + l.authority.port.value;
      }
    }
    DecomposeRenderAuthority(l.authority);
    if l.target.Some? {
      var tgt := RenderTarget(l.target.value);
      FindAfterPrefix(auth, '/', tgt);
      assert Render(l) == auth + ['/'] + tgt;
      assert (auth + ['/'] + tgt)[..|auth|] == auth;
      DecomposeRenderTarget(l.target.value);
    } else {
      assert Render(l) == auth;
    }
  }

  /** Two well-formed layouts that render alike are the same layout. */
  lemma RenderInjective(l1: Layout, l2: Layout)
    requires WellFormed(l1) && WellFormed(l2)
    requires Render(l1) == Render(l2)
    ensures l1 == l2
  {
    DecomposeRender(l1);
    DecomposeRender(l2);
  }
}
