/**
 * URI references in the five components of section 3 of RFC 3986, reference
 * resolution (RFC 3986 section 5.2) and recomposition (RFC 3986 section 5.3).
 */
module Urls {

  import opened Wrappers

  datatype Url = Url(
    scheme: Option<string>,
    authority: Option<string>,
    path: string,
    query: Option<string>,
    fragment: Option<string>)

  /** `URL.is_absolute()`: the reference names a host. */
  predicate IsAbsolute(u: Url) {
    u.authority.Some?
  }

  predicate StartsWith(s: string, prefix: string) {
    |prefix| <= |s| && s[..|prefix|] == prefix
  }

  /** Length of the first segment of `s`: a leading "/" and the characters before the next "/". */
  function FirstSegmentLength(s: string): (n: nat)
    requires |s| > 0
    ensures 0 < n <= |s|
  {
    var start := if s[0] == '/' then 1 else 0;
    SegmentEnd(s, start)
  }

  /** The index of the first "/" at or after `i`, or the length of `s` if there is none. */
  function SegmentEnd(s: string, i: nat): (n: nat)
    requires i <= |s|
    ensures i <= n <= |s|
    ensures n == |s| || s[n] == '/'
    ensures forall k :: i <= k < n ==> s[k] != '/'
    decreases |s| - i
  {
    if i == |s| || s[i] == '/' then i else SegmentEnd(s, i + 1)
  }

  /** Removes the last segment of `out` and the "/" before it (step 2C of RFC 3986 section 5.2.4). */
  function DropLastSegment(out: string): (r: string)
    ensures r <= out
    decreases |out|
  {
    if out == [] then []
    else if out[|out| - 1] == '/' then out[..|out| - 1]
    else DropLastSegment(out[..|out| - 1])
  }

  /** The loop of RFC 3986 section 5.2.4 over the input buffer `input`, with output buffer `out`. */
  function RemoveDots(input: string, out: string): string
    decreases |input|
  {
    if input == [] then out
    else if StartsWith(input, "../") then RemoveDots(input[3..], out)
    else if StartsWith(input, "./") then RemoveDots(input[2..], out)
    else if StartsWith(input, "/./") then RemoveDots("/" + input[3..], out)
    else if input == "/." then RemoveDots("/", out)
    else if StartsWith(input, "/../") then RemoveDots("/" + input[4..], DropLastSegment(out))
    else if input == "/.." then RemoveDots("/", DropLastSegment(out))
    else if input == "." || input == ".." then out
    else
      var n := FirstSegmentLength(input);
      RemoveDots(input[n..], out + input[..n])
  }

  /** remove_dot_segments, RFC 3986 section 5.2.4 */
  function RemoveDotSegments(path: string): string {
    RemoveDots(path, "")
  }

  function LastSlash(s: string): (r: Option<nat>)
    ensures r.Some? ==> r.value < |s| && s[r.value] == '/'
    ensures r.Some? ==> forall i :: r.value < i < |s| ==> s[i] != '/'
    ensures r.None? ==> forall i :: 0 <= i < |s| ==> s[i] != '/'
    decreases |s|
  {
    if s == [] then None
    else if s[|s| - 1] == '/' then Some(|s| - 1)
    else LastSlash(s[..|s| - 1])
  }

  /** merge, RFC 3986 section 5.2.3 */
  function Merge(base: Url, refPath: string): string {
    if base.authority.Some? && base.path == "" then "/" + refPath
    else match LastSlash(base.path)
      case Some(i) => base.path[..i + 1] + refPath
      case None => refPath
  }

  /** `base.join(ref)`: the transformation of RFC 3986 section 5.2.2. */
  function Resolve(base: Url, ref: Url): (t: Url)
    ensures t.fragment == ref.fragment
    ensures ref.scheme.Some? ==> t.scheme == ref.scheme && t.authority == ref.authority
    ensures ref.scheme.None? ==> t.scheme == base.scheme
    ensures ref.scheme.None? && ref.authority.Some? ==> t.authority == ref.authority
    ensures ref.scheme.None? && ref.authority.None? ==> t.authority == base.authority
    ensures ref.scheme.Some? || ref.authority.Some?
            ==> t.path == RemoveDotSegments(ref.path) && t.query == ref.query
    ensures ref.scheme.None? && ref.authority.None? && ref.path == ""
            ==> t.path == base.path && t.query == (if ref.query.Some? then ref.query else base.query)
    ensures ref.scheme.None? && ref.authority.None? && StartsWith(ref.path, "/")
            ==> t.path == RemoveDotSegments(ref.path) && t.query == ref.query
    ensures ref.scheme.None? && ref.authority.None? && ref.path != "" && !StartsWith(ref.path, "/")
            ==> t.path == RemoveDotSegments(Merge(base, ref.path)) && t.query == ref.query
  {
    if ref.scheme.Some? then
      Url(ref.scheme, ref.authority, RemoveDotSegments(ref.path), ref.query, ref.fragment)
    else if ref.authority.Some? then
      Url(base.scheme, ref.authority, RemoveDotSegments(ref.path), ref.query, ref.fragment)
    else if ref.path == "" then
      Url(base.scheme, base.authority, base.path, if ref.query.Some? then ref.query else base.query, ref.fragment)
    else if StartsWith(ref.path, "/") then
      Url(base.scheme, base.authority, RemoveDotSegments(ref.path), ref.query, ref.fragment)
    else
      Url(base.scheme, base.authority, RemoveDotSegments(Merge(base, ref.path)), ref.query, ref.fragment)
  }

  /** `str(url)`: component recomposition, RFC 3986 section 5.3. */
  function ToString(u: Url): string {
    (if u.scheme.Some? then u.scheme.value + ":" else "")
    + (if u.authority.Some? then "//" + u.authority.value else "")
    + u.path
    + (if u.query.Some? then "?" + u.query.value else "")
    + (if u.fragment.Some? then "#" + u.fragment.value else "")
  }

  /** A relative reference resolved against a base that names a host names a host too. */
  lemma ResolveKeepsHost(base: Url, ref: Url)
    requires IsAbsolute(base) && ref.scheme.None?
    ensures IsAbsolute(Resolve(base, ref))
  {
  }

  predicate NoDots(s: string) {
    '.' !in s
  }

  /** None of the dot cases of RFC 3986 section 5.2.4 applies to an input without "." that starts with "/". */
  lemma NoDotCase(input: string)
    requires input != [] && input[0] == '/' && NoDots(input)
    ensures !StartsWith(input, "../") && !StartsWith(input, "./")
    ensures !StartsWith(input, "/./") && !StartsWith(input, "/../")
    ensures input != "/." && input != "/.." && input != "." && input != ".."
  {
    assert |input| >= 2 ==> input[1] in input;
  }

  /** Step 2E of RFC 3986 section 5.2.4 for an input without "." that starts with "/". */
  lemma MoveSegment(input: string, out: string)
    requires input != [] && input[0] == '/' && NoDots(input)
    ensures RemoveDots(input, out) == RemoveDots(input[FirstSegmentLength(input)..], out + input[..FirstSegmentLength(input)])
  {
    NoDotCase(input);
  }

  /** Without any "." the loop of RFC 3986 section 5.2.4 only moves segments across. */
  lemma {:induction false} RemoveDotsWithoutDots(input: string, out: string)
    requires input == [] || input[0] == '/'
    requires NoDots(input)
    ensures RemoveDots(input, out) == out + input
    decreases |input|
  {
    if input != [] {
      var n := FirstSegmentLength(input);
      MoveSegment(input, out);
      assert input == input[..n] + input[n..];
      RemoveDotsWithoutDots(input[n..], out + input[..n]);
      assert input == input[..n] + input[n..];
    }
  }

  /**
   * A server URL that is an absolute path, resolved against a base, keeps the
   * base's scheme and authority and takes the reference's path and query.
   */
  lemma ResolveAbsolutePath(base: Url, ref: Url)
    requires ref.scheme.None? && ref.authority.None?
    requires StartsWith(ref.path, "/") && NoDots(ref.path)
    ensures Resolve(base, ref) == Url(base.scheme, base.authority, ref.path, ref.query, ref.fragment)
  {
    RemoveDotsWithoutDots(ref.path, "");
  }

  /** The last "/" of `s` is the one at `k` when none follows it. */
  lemma {:induction false} LastSlashAt(s: string, k: nat)
    requires k < |s| && s[k] == '/'
    requires forall i :: k < i < |s| ==> s[i] != '/'
    ensures LastSlash(s) == Some(k)
    decreases |s|
  {
    if k < |s| - 1 {
      var t := s[..|s| - 1];
      assert t[k] == s[k];
      LastSlashAt(t, k);
    }
  }

  /**
   * A server URL that is a relative path without dots, such as "api/v1",
   * resolved against a base whose path is a directory `dir` (absolute,
   * ending in "/", without dots) followed by a last segment `file`, is
   * `dir` followed by the reference path, on the base's scheme and authority.
   */
  lemma ResolveRelativePath(base: Url, ref: Url, dir: string, file: string)
    requires ref.scheme.None? && ref.authority.None?
    requires ref.path != [] && ref.path[0] != '/' && NoDots(ref.path)
    requires base.path == dir + file && '/' !in file
    requires dir != [] && dir[0] == '/' && dir[|dir| - 1] == '/' && NoDots(dir)
    ensures Resolve(base, ref) == Url(base.scheme, base.authority, dir + ref.path, ref.query, ref.fragment)
  {
    assert LastSlash(base.path) == Some(|dir| - 1) by {
      forall i | |dir| - 1 < i < |base.path|
        ensures base.path[i] != '/'
      {
        assert base.path[i] == file[i - |dir|];
      }
      LastSlashAt(base.path, |dir| - 1);
    }
    assert base.path[..|dir|] == dir;
    var merged := dir + ref.path;
    assert Merge(base, ref.path) == merged;
    assert NoDots(merged);
    RemoveDotsWithoutDots(merged, "");
    assert "" + merged == merged;
  }
}
