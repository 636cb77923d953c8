/** `new URL(ref, base).href` for the one kind of reference the source
    resolves: a relative path with no scheme, authority, query or fragment
    (the archive file name). Resolution follows section 5.2 of RFC 3986: the
    base loses its query and fragment, and the reference replaces everything
    after the last '/' of the base path. A base that is not of the form
    `scheme://authority[path]` is rejected, as `new URL` throws a TypeError. */
module UrlResolution {
  import opened Wrappers
  import opened Text

  /** No character of `s` is in `cs`. */
  predicate Free(s: string, cs: set<char>)
  {
    forall k | 0 <= k < |s| :: s[k] !in cs
  }

  /** The index of the first character of `s` in `stops`, or `|s|`. */
  function FirstIndexOf(s: string, stops: set<char>): (k: nat)
    ensures k <= |s|
    ensures Free(s[..k], stops)
    ensures k < |s| ==> s[k] in stops
  {
    if |s| == 0 then 0
    else if s[0] in stops then 0
    else
      var k := 1 + FirstIndexOf(s[1..], stops);
      assert forall j | 1 <= j < k :: s[..k][j] == s[1..][..k - 1][j - 1];
      k
  }

  /** The length of the longest prefix of `p` that ends with '/', 0 if `p`
      holds no '/'. */
  function LastSlashEnd(p: string): (k: nat)
    ensures k <= |p|
    ensures k > 0 ==> p[k - 1] == '/'
    ensures Free(p[k..], {'/'})
  {
    if |p| == 0 then 0
    else if p[|p| - 1] == '/' then |p|
    else
      var k := LastSlashEnd(p[..|p| - 1]);
      assert p[k..] == p[..|p| - 1][k..] + [p[|p| - 1]];
      k
  }

  /** The parts of a base URL that resolution keeps. */
  datatype BaseUrl = BaseUrl(scheme: string, authority: string, path: string)

  /** The message of the `TypeError` for an unparsable URL. */
  function InvalidUrl(input: string): string
  {
    "Invalid URL: " + input
  }

  /** The base without its query and fragment. */
  function StripQuery(base: string): string
  {
    base[..FirstIndexOf(base, {'?', '#'})]
  }

  /** Splits `scheme://authority[path]`. */
  function ParseHierarchy(s: string): (r: Result<BaseUrl>)
    ensures r.Ok? ==> r.value.scheme != "" && (r.value.path == "" || r.value.path[0] == '/')
  {
    var c := FirstIndexOf(s, {':', '/'});
    if c == 0 || c == |s| || s[c] != ':' then Err(InvalidUrl(s))
    else
      var rest := s[c + 1..];
      if !StartsWith(rest, "//") then Err(InvalidUrl(s))
      else
        var hier := rest[2..];
        var a := FirstIndexOf(hier, {'/'});
        Ok(BaseUrl(s[..c], hier[..a], hier[a..]))
  }

  /** Splits `scheme://authority[path][?query][#fragment]`, dropping the query
      and the fragment. */
  function ParseBase(base: string): (r: Result<BaseUrl>)
    ensures r.Ok? ==> r.value.scheme != "" && (r.value.path == "" || r.value.path[0] == '/')
  {
    match ParseHierarchy(StripQuery(base))
    case Ok(u) => Ok(u)
    case Err(_) => Err(InvalidUrl(base))
  }

  /** Section 5.2.3 of RFC 3986: merge a relative path with the base path. */
  function MergePaths(basePath: string, ref: string): string
  {
    if basePath == "" then "/" + ref else basePath[..LastSlashEnd(basePath)] + ref
  }

  /** `new URL(ref, base).href` for a path-only relative reference. */
  function Resolve(ref: string, base: string): (r: Result<string>)
    ensures r.Err? <==> ParseBase(base).Err?
    ensures r.Ok? ==> var u := ParseBase(base).value;
                      StartsWith(r.value, u.scheme + "://" + u.authority + "/")
  {
    match ParseBase(base)
    case Err(e) => Err(e)
    case Ok(u) =>
      var prefix := u.scheme + "://" + u.authority;
      var merged := MergePaths(u.path, ref);
      MergedIsAbsolute(u.path, ref);
      SlashPrefix(prefix, merged);
      Ok(prefix + merged)
  }

  /** A merged path starts with '/'. */
  lemma MergedIsAbsolute(basePath: string, ref: string)
    requires basePath == "" || basePath[0] == '/'
    ensures |MergePaths(basePath, ref)| > 0 && MergePaths(basePath, ref)[0] == '/'
  {
    if basePath != "" {
      LastSlashEndPositive(basePath);
    }
  }

  /** A path starting with '/' has a non-empty directory part. */
  lemma {:induction false} LastSlashEndPositive(p: string)
    requires |p| > 0 && p[0] == '/'
    ensures LastSlashEnd(p) > 0
  {
    if p[|p| - 1] != '/' {
      LastSlashEndPositive(p[..|p| - 1]);
    }
  }

  /** A part starting with '/' puts '/' right after what precedes it. */
  lemma SlashPrefix(prefix: string, m: string)
    requires |m| > 0 && m[0] == '/'
    ensures StartsWith(prefix + m, prefix + "/")
  {
    assert (prefix + m)[..|prefix| + 1] == prefix + "/";
  }

  /** The first stop character lies past a prefix that holds none. */
  lemma {:induction false} FirstIndexAppend(x: string, y: string, stops: set<char>)
    requires Free(x, stops)
    ensures FirstIndexOf(x + y, stops) == |x| + FirstIndexOf(y, stops)
  {
    if |x| > 0 {
      assert (x + y)[0] == x[0];
      assert (x + y)[1..] == x[1..] + y;
      FirstIndexAppend(x[1..], y, stops);
    } else {
      assert x + y == y;
    }
  }

  /** A string without stop characters is taken whole. */
  lemma FirstIndexWhole(x: string, stops: set<char>)
    requires Free(x, stops)
    ensures FirstIndexOf(x, stops) == |x|
  {
    FirstIndexAppend(x, "", stops);
    assert x + "" == x;
  }

  /** A segment without '/' after a folder ending in '/' leaves the folder as the merge point. */
  lemma {:induction false} LastSlashEndAppend(d: string, last: string)
    requires |d| > 0 && d[|d| - 1] == '/'
    requires Free(last, {'/'})
    ensures LastSlashEnd(d + last) == |d|
  {
    if |last| > 0 {
      var p := d + last;
      assert p[|p| - 1] == last[|last| - 1];
      assert p[..|p| - 1] == d + last[..|last| - 1];
      LastSlashEndAppend(d, last[..|last| - 1]);
    } else {
      assert d + last == d;
    }
  }

  /** Two strings free of some characters concatenate into one free of them. */
  lemma FreeConcat(x: string, y: string, cs: set<char>)
    requires Free(x, cs) && Free(y, cs)
    ensures Free(x + y, cs)
  {
    assert forall k | |x| <= k < |x + y| :: (x + y)[k] == y[k - |x|];
  }

  /** A base with no query and no fragment is kept whole. */
  lemma StripQueryFree(base: string)
    requires Free(base, {'?', '#'})
    ensures StripQuery(base) == base
  {
    FirstIndexWhole(base, {'?', '#'});
    assert base[..|base|] == base;
  }

  /** A base written as scheme, "://", authority and path parses back into those parts. */
  lemma HierarchyWellFormed(scheme: string, authority: string, path: string)
    requires scheme != "" && Free(scheme, {':', '/'})
    requires Free(authority, {'/'})
    requires path == "" || path[0] == '/'
    ensures ParseHierarchy(scheme + "://" + authority + path) == Ok(BaseUrl(scheme, authority, path))
  {
    var hier := authority + path;
    assert scheme + "://" + authority + path == scheme + (":" + ("//" + hier)) by {
      assert "://" == ":" + "//";
      Associate(scheme, "://", authority);
      Associate(scheme + "://", authority, path);
      Associate(scheme, "://", hier);
      Associate(":", "//", hier);
    }
    SchemePart(scheme, "//" + hier);
    DoubleSlash(hier);
    AuthorityPart(authority, path);
  }

  /** The scheme ends at the first ':'. */
  lemma SchemePart(scheme: string, tail: string)
    requires Free(scheme, {':', '/'})
    ensures var s := scheme + (":" + tail);
            && FirstIndexOf(s, {':', '/'}) == |scheme|
            && s[|scheme|] == ':' && s[..|scheme|] == scheme && s[|scheme| + 1..] == tail
  {
    FirstIndexAppend(scheme, ":" + tail, {':', '/'});
    var s := scheme + (":" + tail);
    assert s[..|scheme|] == scheme;
    assert s[|scheme| + 1..] == tail;
  }

  /** The "//" that introduces an authority, and what follows it. */
  lemma DoubleSlash(hier: string)
    ensures StartsWith("//" + hier, "//") && ("//" + hier)[2..] == hier
  {
  }

  /** The authority ends at the first '/', where the path begins. */
  lemma AuthorityPart(authority: string, path: string)
    requires Free(authority, {'/'})
    requires path == "" || path[0] == '/'
    ensures var hier := authority + path;
            var a := FirstIndexOf(hier, {'/'});
            a == |authority| && hier[..a] == authority && hier[a..] == path
  {
    var hier := authority + path;
    if path == "" {
      assert hier == authority;
      FirstIndexWhole(authority, {'/'});
    } else {
      FirstIndexAppend(authority, path, {'/'});
      assert path[0] in {'/'};
    }
    assert hier[|authority|..] == path;
    assert hier[..|authority|] == authority;
  }

  /** A base of the form `scheme://authority[path]` without query or
      fragment parses into exactly those parts. */
  lemma ParseWellFormed(scheme: string, authority: string, path: string)
    requires scheme != "" && Free(scheme, {':', '/', '?', '#'})
    requires Free(authority, {'/', '?', '#'})
    requires (path == "" || path[0] == '/') && Free(path, {'?', '#'})
    ensures ParseBase(scheme + "://" + authority + path) == Ok(BaseUrl(scheme, authority, path))
  {
    var base := scheme + "://" + authority + path;
    assert Free(scheme, {'?', '#'}) && Free(authority, {'?', '#'});
    assert Free("://", {'?', '#'});
    FreeConcat(scheme, "://", {'?', '#'});
    FreeConcat(scheme + "://", authority, {'?', '#'});
    FreeConcat(scheme + "://" + authority, path, {'?', '#'});
    StripQueryFree(base);
    HierarchyWellFormed(scheme, authority, path);
  }

  /** Resolving against `scheme://authority/dir/last` keeps the base up to
      and including the last '/' and appends the reference: a mirror ending
      in '/' is simply extended, and one that does not loses its last
      segment. */
  lemma ResolveAgainstFolder(scheme: string, authority: string, dir: string, last: string, ref: string)
    requires scheme != "" && Free(scheme, {':', '/', '?', '#'})
    requires Free(authority, {'/', '?', '#'})
    requires |dir| > 0 && dir[0] == '/' && dir[|dir| - 1] == '/' && Free(dir, {'?', '#'})
    requires Free(last, {'/', '?', '#'})
    ensures Resolve(ref, scheme + "://" + authority + dir + last)
            == Ok(scheme + "://" + authority + dir + ref)
  {
    var prefix := scheme + "://" + authority;
    FolderPath(dir, last);
    ParseWellFormed(scheme, authority, dir + last);
    MergeAfterFolder(dir, last, ref);
    ResolveParsed(ref, prefix + (dir + last), BaseUrl(scheme, authority, dir + last));
    Associate(prefix, dir, last);
    Associate(prefix, dir, ref);
  }

  /** A folder followed by a last segment is a path without query or
      fragment. */
  lemma FolderPath(dir: string, last: string)
    requires |dir| > 0 && dir[0] == '/' && Free(dir, {'?', '#'})
    requires Free(last, {'/', '?', '#'})
    ensures (dir + last)[0] == '/' && Free(dir + last, {'?', '#'})
  {
    assert Free(last, {'?', '#'});
    FreeConcat(dir, last, {'?', '#'});
  }

  /** Merging with a path ending in a slash-free segment replaces that
      segment. */
  lemma MergeAfterFolder(dir: string, last: string, ref: string)
    requires |dir| > 0 && dir[|dir| - 1] == '/'
    requires Free(last, {'/', '?', '#'})
    ensures MergePaths(dir + last, ref) == dir + ref
  {
    assert Free(last, {'/'});
    LastSlashEndAppend(dir, last);
    assert (dir + last)[..|dir|] == dir;
  }

  /** Resolution against a parsed base. */
  lemma ResolveParsed(ref: string, base: string, u: BaseUrl)
    requires ParseBase(base) == Ok(u)
    ensures Resolve(ref, base) == Ok(u.scheme + "://" + u.authority + MergePaths(u.path, ref))
  {
  }

  /** Concatenation regroups. */
  lemma Associate(a: string, b: string, c: string)
    ensures a + b + c == a + (b + c)
  {
  }

  /** A base with an authority and no path resolves to `/ref` below it. */
  lemma ResolveAgainstHost(scheme: string, authority: string, ref: string)
    requires scheme != "" && Free(scheme, {':', '/', '?', '#'})
    requires Free(authority, {'/', '?', '#'})
    ensures Resolve(ref, scheme + "://" + authority) == Ok(scheme + "://" + authority + "/" + ref)
  {
    ParseWellFormed(scheme, authority, "");
    assert scheme + "://" + authority + "" == scheme + "://" + authority;
    assert scheme + "://" + authority + ("/" + ref) == scheme + "://" + authority + "/" + ref;
  }
}
