/** String helpers used throughout the model: prefix and substring tests (the
    regular-expression prefix tests and `String.prototype.includes` of the
    source), and Node's `path.join` on '/'-separated paths together with the
    split of a path into its segments. */
module Text {

  /** `s.startsWith(prefix)` */
  predicate StartsWith(s: string, prefix: string)
  {
    |prefix| <= |s| && s[..|prefix|] == prefix
  }

  /** `sub` occurs in `s` starting at index `k`. */
  predicate OccursAt(s: string, sub: string, k: int)
  {
    0 <= k <= |s| - |sub| && s[k..k + |sub|] == sub
  }

  /** `s.includes(sub)` */
  predicate Contains(s: string, sub: string)
  {
    exists k | 0 <= k <= |s| - |sub| :: OccursAt(s, sub, k)
  }

  /** `path.join(a, b)` on already normalised parts: an empty part is
      skipped, otherwise the parts are joined with one '/'. */
  function Join(a: string, b: string): (r: string)
    ensures a == "" ==> r == b
    ensures b == "" ==> r == a
    ensures a != "" && b != "" ==> r == a + "/" + b
  {
    if a == "" then b else if b == "" then a else a + "/" + b
  }

  /** The segments of a path: the maximal runs of characters other than '/'. */
  function Split(s: string): (r: seq<string>)
    ensures |r| >= 1
  {
    if |s| == 0 then [""]
    else
      var rest := Split(s[1..]);
      if s[0] == '/' then [""] + rest
      else [[s[0]] + rest[0]] + rest[1..]
  }

  /** A string without '/' is one segment. */
  lemma {:induction false} SplitNoSlash(s: string)
    requires '/' !in s
    ensures Split(s) == [s]
  {
    if |s| > 0 {
      assert '/' !in s[1..];
      SplitNoSlash(s[1..]);
      assert [s[0]] + s[1..] == s;
    }
  }

  /** Joining two paths with '/' concatenates their segment lists. */
  lemma {:induction false} SplitAppend(a: string, b: string)
    ensures Split(a + "/" + b) == Split(a) + Split(b)
  {
    if |a| == 0 {
      assert a + "/" + b == "/" + b;
      assert ("/" + b)[1..] == b;
    } else {
      var s := a + "/" + b;
      assert s[0] == a[0];
      assert s[1..] == a[1..] + "/" + b;
      SplitAppend(a[1..], b);
    }
  }

  /** Segments of a `Join` of two non-empty parts. */
  lemma SplitJoin(a: string, b: string)
    requires a != "" && b != ""
    ensures Split(Join(a, b)) == Split(a) + Split(b)
  {
    SplitAppend(a, b);
  }

  /** The last segment of a path: `path.basename` without the removal of a
      trailing separator. */
  function Basename(p: string): (r: string)
    ensures '/' !in p ==> r == p
  {
    if '/' !in p then SplitNoSlash(p); p
    else var segs := Split(p); segs[|segs| - 1]
  }
}
