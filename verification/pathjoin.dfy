/** `os.path.join` on POSIX: each component is appended after a '/' unless
    the path so far is empty or already ends with one; an absolute component
    (one starting with '/') discards everything before it. */
module PathJoin {

  predicate EndsWith(s: string, suffix: string) {
    |suffix| <= |s| && s[|s| - |suffix|..] == suffix
  }

  /** A component that does not restart the path from the root. */
  predicate Relative(s: string) {
    |s| == 0 || s[0] != '/'
  }

  /** A non-empty component with no trailing separator. */
  predicate Bare(s: string) {
    |s| > 0 && s[|s| - 1] != '/'
  }

  /** `path` lies under `folder`: `folder` is a prefix of it. */
  predicate Under(path: string, folder: string) {
    folder <= path
  }

  /** `os.path.join(a, b)`. */
  function Join(a: string, b: string): (r: string)
    ensures EndsWith(r, b)
    ensures Relative(b) ==> Under(r, a) && (r == a + b || r == a + "/" + b)
    ensures Relative(b) && r == a + "/" + b ==> Bare(a)
    ensures Relative(b) && Bare(a) ==> r == a + "/" + b
    ensures Relative(b) && !Bare(a) ==> r == a + b
    ensures !Relative(b) ==> r == b
  {
    if !Relative(b) then b
    else if |a| == 0 || a[|a| - 1] == '/' then a + b
    else a + "/" + b
  }

  /** A path whose last component ends with a separator ends with one. */
  lemma NotBareConcat(s: string, t: string)
    requires |t| > 0 && !Bare(t)
    ensures !Bare(s + t)
  {
    assert (s + t)[|s + t| - 1] == t[|t| - 1];
  }

  /** `os.path.join(a, b, c)`. */
  function Join3(a: string, b: string, c: string): string {
    Join(Join(a, b), c)
  }

  /** A path joined from relative components lies under each of its prefixes
      and ends with its last component. */
  lemma Join3Under(a: string, b: string, c: string)
    ensures EndsWith(Join3(a, b, c), c)
    ensures Relative(b) && Relative(c) ==> Under(Join3(a, b, c), a) && Under(Join3(a, b, c), Join(a, b))
  {
    if Relative(b) && Relative(c) {
      UnderTrans(Join3(a, b, c), Join(a, b), a);
    }
  }

  lemma UnderTrans(p: string, q: string, r: string)
    requires Under(p, q) && Under(q, r)
    ensures Under(p, r)
  {
    assert p[..|r|] == q[..|r|];
  }

  /** Joining bare relative components separates them with exactly one '/'. */
  lemma JoinBare(a: string, b: string, c: string)
    requires Bare(a) && Bare(b) && Relative(b) && Relative(c)
    ensures Join3(a, b, c) == a + "/" + b + "/" + c
  {
  }
}
