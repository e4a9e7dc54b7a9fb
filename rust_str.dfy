/**
 * The few `str` operations of Rust's standard library that the URL splitter
 * is built from, over strings as sequences of characters.
 */
module RustStr {
  import opened Wrappers

  /** `s.starts_with(p)`: `p` is a prefix of `s`. */
  predicate StartsWith(s: string, p: string) {
    |p| <= |s| && s[..|p|] == p
  }

  /** `p` written out `k` times in a row. */
  function Repeat(p: string, k: nat): string {
    if k == 0 then "" else p + Repeat(p, k - 1)
  }

  /**
   * `s.find(c)`: the index of the first occurrence of `c` in `s`, or `None`
   * when `c` does not occur.
   */
  function Find(s: string, c: char): (r: Option<nat>)
    ensures r.None? <==> c !in s
    ensures r.Some? ==> r.value < |s| && s[r.value] == c && c !in s[..r.value]
  {
    if s == [] then None
    else if s[0] == c then Some(0)
    else
      match Find(s[1..], c)
      case None => None
      case Some(i) =>
        assert s[..i + 1] == [s[0]] + s[1..][..i];
        Some(i + 1)
  }

  /** Text is what comes before index `i`, the character at `i`, and what follows. */
  lemma SplitAround(s: string, i: nat)
    requires i < |s|
    ensures s == s[..i] + [s[i]] + s[i + 1..]
    ensures s[..i + 1] == s[..i] + [s[i]]
  {
  }

  /** Any index holding the first `c` is the one `Find` returns. */
  lemma FindIsFirst(s: string, c: char, i: nat)
    requires i < |s| && s[i] == c && c !in s[..i]
    ensures Find(s, c) == Some(i)
  {
    var r := Find(s, c);
    assert s[..i + 1][i] == c;
  }

  /** `find` on text made of a `c`-free prefix, then `c`, then anything. */
  lemma FindAfterPrefix(x: string, c: char, y: string)
    requires c !in x
    ensures Find(x + [c] + y, c) == Some(|x|)
  {
    var s := x + [c] + y;
    assert s[..|x|] == x;
    FindIsFirst(s, c, |x|);
  }

  /**
   * `s.splitn(2, c).collect::<Vec<&str>>()`: the text before the first `c`
   * and, when there is a `c`, the text after it.
   */
  function SplitN2(s: string, c: char): (parts: seq<string>)
    ensures 1 <= |parts| <= 2
    ensures c !in parts[0]
    ensures |parts| == 1 <==> c !in s
    ensures |parts| == 1 ==> parts[0] == s
    ensures |parts| == 2 ==> s == parts[0] + [c] + parts[1]
  {
    match Find(s, c)
    case None => [s]
    case Some(i) =>
      assert s == s[..i] + [c] + s[i + 1..];
      [s[..i], s[i + 1..]]
  }

  /**
   * `s.trim_start_matches(p)`: `s` with every leading copy of `p` removed,
   * one copy after another. An empty pattern removes nothing.
   */
  function TrimStartMatches(s: string, p: string): string
    decreases |s|
  {
    if p != [] && StartsWith(s, p) then TrimStartMatches(s[|p|..], p) else s
  }

  /**
   * The result is a suffix of `s` that no longer starts with a non-empty
   * `p`, and it is `s` itself when `s` does not start with `p`.
   */
  lemma {:induction false} TrimStartMatchesSuffix(s: string, p: string)
    ensures var r := TrimStartMatches(s, p);
      |r| <= |s| && r == s[|s| - |r|..] &&
      (p != [] ==> !StartsWith(r, p)) &&
      (!StartsWith(s, p) ==> r == s)
    decreases |s|
  {
    if p != [] && StartsWith(s, p) {
      var t := s[|p|..];
      TrimStartMatchesSuffix(t, p);
      var r := TrimStartMatches(t, p);
      assert t[|t| - |r|..] == s[|s| - |r|..];
    }
  }

  /** One or more copies of `p` in front of `s` start with `p`. */
  lemma RepeatStartsWith(p: string, k: nat, s: string)
    requires k >= 1
    ensures StartsWith(Repeat(p, k) + s, p)
  {
    var t := Repeat(p, k) + s;
    assert t == p + (Repeat(p, k - 1) + s);
    assert t[..|p|] == p;
  }

  /** One leading copy of `p` is removed before the rest is looked at. */
  lemma TrimStartMatchesStep(p: string, rest: string)
    requires p != []
    ensures TrimStartMatches(p + rest, p) == TrimStartMatches(rest, p)
  {
    var t := p + rest;
    assert t[..|p|] == p;
    assert t[|p|..] == rest;
  }

  /** With `k >= 1`, `trim_start_matches` removes the first of the `k` copies. */
  lemma TrimStartMatchesRepeatStep(p: string, k: nat, s: string)
    requires p != [] && k >= 1
    ensures TrimStartMatches(Repeat(p, k) + s, p) == TrimStartMatches(Repeat(p, k - 1) + s, p)
  {
    var rest := Repeat(p, k - 1) + s;
    assert Repeat(p, k) + s == p + rest;
    TrimStartMatchesStep(p, rest);
  }

  /** Any number of leading copies of `p` are all removed, and nothing more. */
  lemma {:induction false} TrimStartMatchesRepeat(p: string, k: nat, s: string)
    requires p != [] && !StartsWith(s, p)
    ensures TrimStartMatches(Repeat(p, k) + s, p) == s
  {
    if k == 0 {
      assert Repeat(p, k) + s == s;
    } else {
      TrimStartMatchesRepeatStep(p, k, s);
      TrimStartMatchesRepeat(p, k - 1, s);
    }
  }
}
