/** The part of Python's `posixpath` the widgets rely on. */
module OsPath {

  /** `os.path.join(a, b)` on POSIX: an absolute `b` replaces `a`; otherwise one '/'
      separates the two unless `a` is empty or already ends with one. */
  function Join(a: string, b: string): string {
    if |b| > 0 && b[0] == '/' then b
    else if a == [] || a[|a| - 1] == '/' then a + b
    else a + "/" + b
  }

  /** The joined path ends with `b`; a relative `b` keeps `a` in front, with at most
      one added separator, and an absolute `b` is the whole result. */
  lemma JoinShape(a: string, b: string)
    ensures |b| > 0 && b[0] == '/' ==> Join(a, b) == b
    ensures !(|b| > 0 && b[0] == '/') ==>
              var p := Join(a, b);
              |a| + |b| <= |p| <= |a| + 1 + |b| && p[..|a|] == a && p[|p| - |b|..] == b
  {
  }
}
