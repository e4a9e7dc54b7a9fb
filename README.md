# saba_core `Url`: a verified model

`saba_core` is the core crate of a small educational web browser. Its only
logic is a minimal HTTP URL splitter, the `Url` type. `Url::new` stores a raw
string and sets the derived fields `host`, `port`, `path` and `searchpart`
to `""`. `parse`:

1. fails with the fixed message `http:// から始まるURLを指定してください` unless
   the string starts with `http://`;
2. otherwise strips every leading `http://` (`trim_start_matches`);
3. cuts the remainder at its first `/` into authority and rest (`splitn(2, '/')`);
4. cuts the authority at its first `:` into host and port, with default port `"80"`;
5. cuts the rest at its first `?` into path and search part;
6. returns a copy of the updated value.

The type exists twice:

- `saba_core/src/url.rs` is the copy that carries the crate's unit tests, modelled by module `SabaCoreUrl`.
- `saba_core/src/lib.rs` is an earlier copy, modelled by module `SabaCore`. There the query field is `searchPath` and its accessor `search_path`.

The modules:

- `Wrappers`: `Option` and `Result`.
- `RustStr`: the Rust `str` operations the splitter uses, over strings as `seq<char>`.
  - `starts_with`, `find` for a character, `splitn(2, c)`, `trim_start_matches`.
  - Each comes with its contract or with lemmas.
- `UrlLayout`: an independent reference for what the splitter reads.
  - A `Layout` datatype: a host, an optional port, and an optional target with a path and an optional query.
  - `Render`, which writes a layout out.
  - `Decompose`, which reads text back by first-occurrence cuts.
  - Proved inverse on well-formed layouts, so every text has exactly one well-formed layout.
- `SabaCoreUrl`: the url.rs copy.
  - `class Url` with the struct's five fields and a `Parse` method that assigns them.
  - The `extract_*` helpers as pure functions of the stored string.
  - `Parsed`, the specification function of `parse`.
  - Lemmas tying the fields to the layout of the remainder, the reconstruction property, the repeated-prefix behaviour, and the unit tests as example lemmas.
- `SabaCore`: the lib.rs copy, written out as the code does it.
  - Proved to agree field by field with `SabaCoreUrl`.
  - The properties of its fields are stated about this copy's own functions (`HostAndPort`, `PathAndSearchPath`, `ParsedFromLayout`) and proved through the agreement lemmas.

The `extract_*` methods read only `self.url`, so they are functions of that
string. `parse` assigns the four fields one after another
(url.rs:35-38). Because none of these extractions reads a derived field, the
model assigns them in one simultaneous assignment, which gives the same final
state.

The port can be empty: `http://h:` gives `""` (url.rs:72-73), and
`SabaCoreUrl.ExampleEmptyPort` proves this case.

## Model

| member | source | states |
|---|---|---|
| RustStr.Find | saba_core/src/url.rs:57 | `find(':')` is `None` exactly when the character is absent; otherwise the index holds it and no earlier index does |
| RustStr.StartsWith | saba_core/src/url.rs:43-48 | `starts_with`: the pattern is a prefix of the text (its definition) |
| RustStr.FindIsFirst | saba_core/src/url.rs:57 | any index that holds the first occurrence is the one `find` returns |
| RustStr.FindAfterPrefix | saba_core/src/url.rs:57 | on a `c`-free prefix, then `c`, then anything, `find` returns the prefix length |
| RustStr.SplitN2 | saba_core/src/url.rs:51-55 | `splitn(2, c)` gives one or two parts; the first holds no `c`; there is one part exactly when `c` is absent (and it is the text); with two, part, `c`, part spell the text |
| RustStr.TrimStartMatchesSuffix | saba_core/src/url.rs:53 | `trim_start_matches` gives a suffix of its input that no longer starts with the (non-empty) pattern, and the input itself when it did not start with it |
| RustStr.TrimStartMatchesRepeat | saba_core/src/url.rs:53 | any number of leading copies of the pattern are all removed, and nothing after them |
| RustStr.TrimStartMatches | saba_core/src/url.rs:53 | `trim_start_matches`: its body strips one leading copy of a non-empty pattern at a time until none is left; `TrimStartMatchesSuffix` and `TrimStartMatchesRepeat` state what it yields |
| UrlLayout.RenderPieces | saba_core/src/url.rs:50-106 | a layout is written as host, `":" port`, `"/" path`, `"?" query`, each piece only when present |
| UrlLayout.DecomposeAuthority | saba_core/src/url.rs:57-62 | cutting at the first `:` gives a `:`-free host that renders back to the text; there is a port exactly when the text has a `:` |
| UrlLayout.DecomposeTarget | saba_core/src/url.rs:88-89 | cutting at the first `?` gives a `?`-free path that renders back to the text; there is a query exactly when the text has a `?` |
| UrlLayout.Decompose | saba_core/src/url.rs:50-106 | cutting at the first `/` and then each side gives a well-formed layout that renders back to the text; it has a target exactly when the text has a `/` |
| UrlLayout.DecomposeRenderAuthority | saba_core/src/url.rs:57-62 | reading back a rendered well-formed authority gives that authority |
| UrlLayout.DecomposeRenderTarget | saba_core/src/url.rs:101-105 | reading back a rendered well-formed target gives that target |
| UrlLayout.DecomposeRender | saba_core/src/url.rs:50-106 | `Decompose` inverts `Render` on well-formed layouts |
| UrlLayout.RenderInjective | saba_core/src/url.rs:50-106 | two well-formed layouts that render alike are equal, so each text has one well-formed layout |
| SabaCoreUrl.RemainderIsTrimmed | saba_core/src/url.rs:51-53 | the remainder after `trim_start_matches("http://")` never starts with `http://`; for an `http://` URL it is a suffix at least seven characters shorter |
| SabaCoreUrl.IsHttp | saba_core/src/url.rs:43-48 | `is_http`: the stored string starts with `http://` (its definition); `Parsed` states that `parse` fails exactly when it does not |
| SabaCoreUrl.Remainder | saba_core/src/url.rs:53 | the `trim_start_matches("http://")` every `extract_*` starts from; `RemainderIsTrimmed` states its meaning |
| SabaCoreUrl.UrlParts | saba_core/src/url.rs:51-55 | the remainder is cut into one or two parts |
| SabaCoreUrl.UrlPartsSplits | saba_core/src/url.rs:51-55 | the authority holds no `/`; a second part exists exactly when the remainder holds a `/`; authority, `/` and rest spell the remainder |
| SabaCoreUrl.ExtractHost | saba_core/src/url.rs:50-63 | `extract_host`'s cut of the authority at its first `:`; `ExtractHostSplits` states its meaning |
| SabaCoreUrl.ExtractPort | saba_core/src/url.rs:65-77 | `extract_port`'s text after the authority's first `:`, or `"80"`; `ExtractPortSplits` states its meaning |
| SabaCoreUrl.ExtractPath | saba_core/src/url.rs:78-90 | `extract_path`'s rest before its first `?`, or `""` without a `/`; `ExtractPathSplits` states its meaning |
| SabaCoreUrl.ExtractSearchpart | saba_core/src/url.rs:91-106 | `extract_searchpart`'s rest after its first `?`, or `""`; `ExtractSearchpartSplits` states its meaning |
| SabaCoreUrl.ExtractHostSplits | saba_core/src/url.rs:50-63 | host holds neither `:` nor `/`; it is the whole authority without a `:`; otherwise it is the text before the authority's first `:` |
| SabaCoreUrl.ExtractPortSplits | saba_core/src/url.rs:65-77 | port holds no `/`; it is exactly `"80"` when the authority has no `:`; otherwise host, `:` and port spell the authority (the port may be empty) |
| SabaCoreUrl.ExtractPathSplits | saba_core/src/url.rs:78-90 | path holds no `?`; it is `""` without a `/`; it is the whole rest when the rest has no `?` |
| SabaCoreUrl.ExtractSearchpartSplits | saba_core/src/url.rs:91-106 | search part is `""` without a `/` or without a `?` in the rest; otherwise path, `?` and search part spell the rest |
| SabaCoreUrl.Parsed | saba_core/src/url.rs:25-48 | `parse` fails exactly when the string does not start with `http://`, always with the fixed message; on success the record keeps the string |
| SabaCoreUrl.Url.constructor | saba_core/src/url.rs:15-23 | `new` keeps the string verbatim and sets every derived field to `""` |
| SabaCoreUrl.Url.Parse | saba_core/src/url.rs:25-41 | returns `Parsed` of the stored string; on failure nothing changes; on success `url` is unchanged and the fields equal the returned copy |
| SabaCoreUrl.Url.Host | saba_core/src/url.rs:108-110 | returns the current host field |
| SabaCoreUrl.Url.Port | saba_core/src/url.rs:111-113 | returns the current port field |
| SabaCoreUrl.Url.Path | saba_core/src/url.rs:114-116 | returns the current path field |
| SabaCoreUrl.Url.Searchpart | saba_core/src/url.rs:117-119 | returns the current search part field |
| SabaCoreUrl.NewAndParse | saba_core/src/url.rs:129 | `Url::new(url).parse()` returns `Parsed(url)` |
| SabaCoreUrl.ParseTwice | saba_core/src/url.rs:25-41 | a second `parse` returns the same result as the first and leaves the record as the first set it |
| SabaCoreUrl.UrlPartsDecompose | saba_core/src/url.rs:51-55 | the two parts are the remainder's layout cut at the same first `/` |
| SabaCoreUrl.ParsedIsDecompose | saba_core/src/url.rs:50-106 | on an `http://` URL the four fields are those of the remainder's unique layout, with `"80"` and `""` for absent pieces |
| SabaCoreUrl.ParsedFromLayout | saba_core/src/url.rs:50-106 | any well-formed layout that renders as the remainder gives exactly the parsed fields |
| SabaCoreUrl.Reconstruction | saba_core/src/url.rs:50-106 | remainder == host ++ (`:` port if the authority had `:`) ++ (`/` path if there was a `/`) ++ (`?` search part if the rest had `?`) |
| SabaCoreUrl.RemainderOfRepeatedScheme | saba_core/src/url.rs:51-53 | behind one or more copies of `http://`, the URL is accepted and the remainder is the text after all of them |
| SabaCoreUrl.ParseRendered | saba_core/src/url.rs:31-106 | parsing a rendered layout behind `k >= 1` copies of `http://` gives back that layout's fields |
| SabaCoreUrl.ExampleHost | saba_core/src/url.rs:126-138 | `http://example.com` gives host `example.com`, port `80`, empty path and search part |
| SabaCoreUrl.ExampleHostPort | saba_core/src/url.rs:140-152 | `http://example.com:8080` gives port `8080` |
| SabaCoreUrl.ExampleHostPortPath | saba_core/src/url.rs:154-166 | `http://example.com:8080/path` gives port `8080`, path `path` |
| SabaCoreUrl.ExampleHostPath | saba_core/src/url.rs:168-180 | `http://example.com/path` gives port `80`, path `path` |
| SabaCoreUrl.ExampleHostPathSearchpart | saba_core/src/url.rs:182-194 | `http://example.com/path?search=hoge&key=piyo` gives path `path`, search part `search=hoge&key=piyo` |
| SabaCoreUrl.ExampleNoScheme | saba_core/src/url.rs:196-210 | `example.com` and `ftp://example.com` fail with the fixed message |
| SabaCoreUrl.ExampleEmptyPort | saba_core/src/url.rs:72-73 | `http://h:` gives port `""`, not `"80"` |
| SabaCoreUrl.ExampleRepeatedScheme | saba_core/src/url.rs:51-53 | `http://http://x` gives host `x` |
| SabaCoreUrl.ExampleQueryWithoutSlash | saba_core/src/url.rs:57-62 | `http://h?q` gives host `h?q` and an empty search part |
| SabaCore.SameConstants | saba_core/src/lib.rs:37-81 | the copy's error message (lib.rs:38), `http://` prefix (lib.rs:50) and default port `"80"` (lib.rs:81) are those of url.rs |
| SabaCore.IsHttp | saba_core/src/lib.rs:49-54 | `is_http` of the lib.rs copy: the stored string starts with `http://` (its definition); `SabaCore.Parsed` states that `parse` fails exactly when it does not |
| SabaCore.UrlParts | saba_core/src/lib.rs:57-61 | the remainder is cut into one or two parts |
| SabaCore.UrlPartsAgrees | saba_core/src/lib.rs:57-61 | the copy cuts exactly as url.rs does |
| SabaCore.ExtractHost | saba_core/src/lib.rs:56-69 | the lib.rs `extract_host`, written as the code does it; `HostAgrees` and `HostAndPort` state its meaning |
| SabaCore.ExtractPort | saba_core/src/lib.rs:71-83 | the lib.rs `extract_port`, written as the code does it; `PortAgrees` and `HostAndPort` state its meaning |
| SabaCore.ExtractPath | saba_core/src/lib.rs:84-96 | the lib.rs `extract_path`, written as the code does it; `PathAgrees` and `PathAndSearchPath` state its meaning |
| SabaCore.ExtractSearchPath | saba_core/src/lib.rs:97-112 | the lib.rs `extract_search_path`, written as the code does it; `SearchPathAgrees` and `PathAndSearchPath` state its meaning |
| SabaCore.HostAgrees | saba_core/src/lib.rs:56-69 | `extract_host` equals url.rs's |
| SabaCore.PortAgrees | saba_core/src/lib.rs:71-83 | `extract_port` equals url.rs's, default `"80"` included |
| SabaCore.PathAgrees | saba_core/src/lib.rs:84-96 | `extract_path` equals url.rs's |
| SabaCore.SearchPathAgrees | saba_core/src/lib.rs:97-112 | `extract_search_path` equals url.rs's `extract_searchpart` |
| SabaCore.HostAndPort | saba_core/src/lib.rs:56-83 | host holds no `:` or `/` and is the authority before its first `:`; port follows that `:`, or is `"80"` without one |
| SabaCore.Parsed | saba_core/src/lib.rs:31-54 | the copy's `parse` fails exactly when the string lacks `http://`, with the fixed message; on success the record keeps the string |
| SabaCore.AgreesWithUrlRs | saba_core/src/lib.rs:31-112 | both copies fail on the same strings with the same message and otherwise report the same four fields |
| SabaCore.Url.constructor | saba_core/src/lib.rs:21-29 | `new` keeps the string and sets every derived field to `""` |
| SabaCore.Url.Parse | saba_core/src/lib.rs:31-47 | returns `Parsed` of the stored string; on failure nothing changes; on success `url` is unchanged and the fields equal the returned copy |
| SabaCore.Url.Host | saba_core/src/lib.rs:114-116 | returns the current host field |
| SabaCore.Url.Port | saba_core/src/lib.rs:117-119 | returns the current port field |
| SabaCore.Url.Path | saba_core/src/lib.rs:120-122 | returns the current path field |
| SabaCore.Url.SearchPath | saba_core/src/lib.rs:123-125 | returns the current `searchPath` field |
| SabaCore.ParsedFromLayout | saba_core/src/lib.rs:56-112 | the copy's fields are those of the remainder's well-formed layout |
| SabaCore.PathAndSearchPath | saba_core/src/lib.rs:84-112 | path and `searchPath` are `""` without a `/`; otherwise the rest before and after its first `?`, `searchPath` `""` without a `?` |

## Left out

- Crate plumbing has no behaviour and is not modelled: `#![no_std]`, `extern crate alloc`, the `use` imports and `pub mod url` (lib.rs:1-9, url.rs:1-3).
- Ownership, `clone()` and `String` versus `&str` are modelled as plain value copies. `Record()` is the value `clone()` copies and `PartialEq` compares.
- UTF-8 byte offsets are modelled as character indices. Every separator is ASCII, so the cuts are the same.
- `Url.Parse` (both copies) assigns the four fields in one simultaneous assignment instead of four statements. Each extraction reads only `url`, so the final state is the same.
- The copies' `extract_*` functions have no contracts of their own. Lemmas state their properties: `SabaCoreUrl.Extract*Splits`, and for lib.rs `SabaCore.*Agrees`, `SabaCore.HostAndPort` and `SabaCore.PathAndSearchPath`.
- The test harness (`#[cfg(test)]`, `assert_eq!`) is not modelled. The tests' inputs and expected values become the `Example*` lemmas, with inputs written as concatenations of their literal pieces.
- The code does not provide these, so the model claims none of them: numeric port validation, percent-decoding, fragments, userinfo, IPv6 literals, and non-empty host or port.
