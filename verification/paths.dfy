/** `posixpath.join` for two components and `posixpath.basename`, as the playlist code uses them. */
module Paths {

  /**
   * `os.path.join(a, b)` on POSIX: an absolute `b` replaces `a`; otherwise a
   * "/" is inserted unless `a` is empty or already ends in "/".
   */
  function Join(a: string, b: string): string
  {
    if |b| > 0 && b[0] == '/' then b
    else if a == "" || a[|a| - 1] == '/' then a + b
    else a + "/" + b
  }

  /** `os.path.basename(p)`: everything after the last "/". */
  function Basename(p: string): string
  {
    if p == [] || p[|p| - 1] == '/' then []
    else Basename(p[..|p| - 1]) + [p[|p| - 1]]
  }

  /** A component without "/" is appended after the prefix and one separator at most. */
  lemma JoinShape(a: string, b: string)
    requires '/' !in b
    ensures Join(a, b) == a + b || Join(a, b) == a + "/" + b
    ensures Join(a, b)[..|a|] == a
    ensures Join(a, b) == a + b <==> (a == "" || a[|a| - 1] == '/')
  {
    if |b| > 0 { assert b[0] in b; }
    if !(a == "" || a[|a| - 1] == '/') {
      assert (a + "/" + b)[..|a|] == a;
    }
  }

  lemma {:induction false} BasenameAfterSlash(x: string, b: string)
    requires |x| > 0 && x[|x| - 1] == '/'
    requires '/' !in b
    ensures Basename(x + b) == b
  {
    if b != [] {
      var p := x + b;
      assert p[..|p| - 1] == x + b[..|b| - 1];
      assert b[|b| - 1] in b;
      BasenameAfterSlash(x, b[..|b| - 1]);
      assert b[..|b| - 1] + [b[|b| - 1]] == b;
    } else {
      assert x + b == x;
    }
  }

  /** The file name can be read back from the joined path: `basename(join(a, b)) == b`. */
  lemma BasenameOfJoin(a: string, b: string)
    requires '/' !in b && a != ""
    ensures Basename(Join(a, b)) == b
  {
    if |b| > 0 { assert b[0] in b; }
    if a[|a| - 1] == '/' {
      BasenameAfterSlash(a, b);
    } else {
      assert a + "/" + b == (a + "/") + b;
      BasenameAfterSlash(a + "/", b);
    }
  }

  /** Joining puts no character into the path that is in neither part, other than "/". */
  lemma JoinChars(a: string, b: string, c: char)
    requires c != '/' && c !in a && c !in b
    ensures c !in Join(a, b)
  {
  }
}
