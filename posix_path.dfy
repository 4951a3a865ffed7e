/**
 * The POSIX path operations the file store relies on: `os.path.join` and the
 * absolutising part of `os.path.abspath`. Paths are plain strings.
 */
module PosixPath {

  /** A path that starts at the file-system root. */
  predicate IsAbsolute(p: string) {
    |p| > 0 && p[0] == '/'
  }

  /** A single path component: non-empty and free of separators. */
  predicate IsPlainName(p: string) {
    |p| > 0 && '/' !in p
  }

  /**
   * `os.path.join(a, b)`: an absolute `b` discards `a`; otherwise `b` is
   * appended, with a separator unless `a` is empty or already ends in one.
   */
  function Join(a: string, b: string): (r: string)
    ensures IsAbsolute(b) ==> r == b
    ensures !IsAbsolute(b) ==> |a| + |b| <= |r| && r[..|a|] == a && r[|r| - |b|..] == b
  {
    if IsAbsolute(b) then b
    else if a == [] || a[|a| - 1] == '/' then a + b
    else a + "/" + b
  }

  /**
   * `os.path.join(a, *parts)`: join the parts one after another, left to right.
   * The result ends with the last part, whatever came before it.
   */
  function JoinAll(a: string, parts: seq<string>): (r: string)
    ensures parts == [] ==> r == a
    ensures parts != [] ==> |parts[|parts| - 1]| <= |r| && r[|r| - |parts[|parts| - 1]|..] == parts[|parts| - 1]
    decreases |parts|
  {
    if parts == [] then a else JoinAll(Join(a, parts[0]), parts[1..])
  }

  /** The part of `p` up to and including its last separator; empty when it has none. */
  function Head(p: string): string
    decreases |p|
  {
    if p == [] then []
    else if p[|p| - 1] == '/' then p
    else Head(p[..|p| - 1])
  }

  /** `s.rstrip('/')`: `s` without any trailing separators. */
  function RStripSeparators(s: string): string
    decreases |s|
  {
    if |s| > 0 && s[|s| - 1] == '/' then RStripSeparators(s[..|s| - 1]) else s
  }

  /**
   * `os.path.dirname(p)`: the head of `p` without its trailing separators,
   * unless the head consists of separators only.
   */
  function DirName(p: string): string {
    var head := Head(p);
    var stripped := RStripSeparators(head);
    if stripped == [] then head else stripped
  }

  /** The head of "d/name" with a separator-free name is "d/". */
  lemma {:induction false} HeadOfChild(d: string, name: string)
    requires '/' !in name
    ensures Head(d + "/" + name) == d + "/"
    decreases |name|
  {
    var p := d + "/" + name;
    if name != [] {
      assert name[|name| - 1] in name;
      var name' := name[..|name| - 1];
      assert p[..|p| - 1] == d + "/" + name';
      HeadOfChild(d, name');
    }
  }

  /**
   * The directory of "d/name", for a separator-free name and a directory
   * without a trailing separator, is d (the root when d is empty).
   */
  lemma DirNameOfChild(d: string, name: string)
    requires '/' !in name
    requires d == [] || d[|d| - 1] != '/'
    ensures DirName(d + ("/" + name)) == if d == [] then "/" else d
  {
    HeadOfChild(d, name);
    ConcatAssoc(d, "/", name);
    var head := d + "/";
    assert head[..|head| - 1] == d;
    assert RStripSeparators(head) == RStripSeparators(d);
  }

  /** `a` without one trailing separator. */
  function TrimSlash(a: string): string {
    if |a| > 0 && a[|a| - 1] == '/' then a[..|a| - 1] else a
  }

  /** Each part preceded by a separator: "/p0/p1/...". */
  function Slashed(parts: seq<string>): string
    decreases |parts|
  {
    if parts == [] then "" else "/" + parts[0] + Slashed(parts[1..])
  }

  /**
   * The absolutising step of `os.path.abspath`: a relative path is taken
   * relative to the working directory `cwd`, an absolute one is kept.
   */
  function AbsPath(cwd: string, p: string): (r: string)
    ensures IsAbsolute(p) ==> r == p
    ensures IsAbsolute(cwd) ==> IsAbsolute(r)
  {
    if IsAbsolute(p) then p else Join(cwd, p)
  }

  /** Absolutising twice, even from another working directory, changes nothing. */
  lemma AbsPathIdempotent(cwd: string, cwd': string, p: string)
    requires IsAbsolute(cwd)
    ensures AbsPath(cwd', AbsPath(cwd, p)) == AbsPath(cwd, p)
  {
  }

  /** Joining one plain component onto a non-empty directory inserts exactly one separator. */
  lemma JoinPlain(a: string, b: string)
    requires |a| > 0 && IsPlainName(b)
    ensures Join(a, b) == TrimSlash(a) + ("/" + b)
  {
    assert b[0] in b;
    if a[|a| - 1] == '/' {
      assert a == a[..|a| - 1] + "/";
      ConcatAssoc(a[..|a| - 1], "/", b);
    } else {
      ConcatAssoc(a, "/", b);
    }
  }

  /**
   * Joining one or more plain components onto a non-empty directory gives the
   * directory (without a trailing separator) followed by "/part" for each part,
   * in order.
   */
  lemma {:induction false} JoinAllPlain(a: string, parts: seq<string>)
    requires |a| > 0
    requires parts != []
    requires forall i :: 0 <= i < |parts| ==> IsPlainName(parts[i])
    ensures JoinAll(a, parts) == TrimSlash(a) + Slashed(parts)
    decreases |parts|
  {
    var b, rest := parts[0], parts[1..];
    JoinPlain(a, b);
    var a' := Join(a, b);
    JoinedPlainIsTrimmed(a, b);
    assert JoinAll(a, parts) == JoinAll(a', rest);
    assert Slashed(parts) == "/" + b + Slashed(rest);
    if rest == [] {
      assert Slashed(rest) == "" && JoinAll(a', rest) == a';
      assert Slashed(parts) == "/" + b;
      assert a' == TrimSlash(a) + ("/" + b);
    } else {
      JoinAllPlain(a', rest);
      ConcatAssoc(TrimSlash(a), "/" + b, Slashed(rest));
    }
  }

  /** After a plain component has been joined on, there is no trailing separator to trim. */
  lemma JoinedPlainIsTrimmed(a: string, b: string)
    requires |a| > 0 && IsPlainName(b)
    ensures |Join(a, b)| > 0 && TrimSlash(Join(a, b)) == Join(a, b)
  {
    var j := Join(a, b);
    assert j[|j| - 1] == b[|b| - 1] && b[|b| - 1] in b;
  }

  /** Sequence concatenation is associative (stated once so the solver need not search for it). */
  lemma ConcatAssoc(x: string, y: string, z: string)
    ensures (x + y) + z == x + (y + z)
  {
  }

  /** When two "dir/name" splittings of one path differ in name length, the longer name holds the other's separator. */
  lemma SeparatorInLongerName(d1: string, n1: string, d2: string, n2: string)
    requires d1 + "/" + n1 == d2 + "/" + n2
    requires |n2| < |n1|
    ensures n1[|n1| - |n2| - 1] == '/'
  {
    var p := d2 + "/" + n2;
    assert p[|p| - |n2| - 1] == '/';
  }

  /** A path ending in "/name" with a separator-free name determines both its directory and its name. */
  lemma LastComponentUnique(d1: string, n1: string, d2: string, n2: string)
    requires '/' !in n1 && '/' !in n2
    requires d1 + "/" + n1 == d2 + "/" + n2
    ensures d1 == d2 && n1 == n2
  {
    if |n2| < |n1| {
      SeparatorInLongerName(d1, n1, d2, n2);
      assert false;
    } else if |n1| < |n2| {
      SeparatorInLongerName(d2, n2, d1, n1);
      assert false;
    } else {
      var p := d1 + "/" + n1;
      assert n1 == p[|p| - |n1|..] == n2;
      assert d1 == p[..|d1|] == d2;
    }
  }
}
