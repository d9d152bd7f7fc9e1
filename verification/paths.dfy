/**
 * Slash-separated paths as Go's path/filepath package treats them on Unix:
 * `Base` as the library defines it for every string, and `Dir` and `Join`
 * on clean paths, where the library's final call to Clean changes nothing.
 * `filepath.Abs` always returns a clean absolute path, and that is the only
 * kind of path `Dir` is applied to in main.go.
 */
module Paths {

  /** Index of the last '/' in p, or -1 when p holds none. */
  function LastSlash(p: string): (k: int)
    ensures -1 <= k < |p|
    ensures k >= 0 ==> p[k] == '/'
    ensures forall j :: k < j < |p| ==> p[j] != '/'
    decreases |p|
  {
    if |p| == 0 then -1
    else if p[|p| - 1] == '/' then |p| - 1
    else LastSlash(p[..|p| - 1])
  }

  /** One path element of a clean path: non-empty, slash-free, neither "." nor "..". */
  predicate IsName(s: string) {
    |s| > 0 && '/' !in s && s != "." && s != ".."
  }

  /** A clean absolute path: "/" or "/" followed by names joined by single slashes. */
  predicate IsCleanAbs(p: string)
    decreases |p|
  {
    p == "/" ||
    (|p| >= 2 && p[0] == '/' &&
     var k := LastSlash(p);
     IsName(p[k + 1..]) && (k == 0 || (k >= 2 && IsCleanAbs(p[..k]))))
  }

  /** A clean relative path: names joined by single slashes. */
  predicate IsCleanRel(p: string)
    decreases |p|
  {
    var k := LastSlash(p);
    if k == -1 then IsName(p) else 0 < k && IsName(p[k + 1..]) && IsCleanRel(p[..k])
  }

  /** p with every trailing '/' removed. */
  function StripTrailingSlashes(p: string): (r: string)
    ensures r <= p
    ensures r == "" || r[|r| - 1] != '/'
    ensures forall i :: |r| <= i < |p| ==> p[i] == '/'
    decreases |p|
  {
    if |p| > 0 && p[|p| - 1] == '/' then StripTrailingSlashes(p[..|p| - 1]) else p
  }

  /**
   * filepath.Base: the last element of p after trailing slashes are removed;
   * "." for the empty path and "/" for a path made only of slashes.
   */
  function Base(p: string): (r: string)
    ensures |r| > 0
    ensures r == "/" || '/' !in r
    ensures p == "" ==> r == "."
    ensures p != "" && (forall i :: 0 <= i < |p| ==> p[i] == '/') ==> r == "/"
  {
    if p == "" then "."
    else
      var q := StripTrailingSlashes(p);
      if q == "" then "/" else q[LastSlash(q) + 1..]
  }

  /**
   * filepath.Join(d, n) for a clean absolute d and a clean relative n: the
   * two joined by one slash, which is already clean. JoinName, JoinIsClean
   * and JoinSplit state what it promises.
   */
  function Join(d: string, n: string): string {
    if d == "/" then "/" + n else d + "/" + n
  }

  /** filepath.Dir on a clean absolute path: everything before the last element. */
  function Dir(p: string): (r: string)
    requires IsCleanAbs(p)
    ensures IsCleanAbs(r)
    ensures p == "/" ==> r == "/"
    ensures p != "/" ==> |r| < |p|
  {
    var k := LastSlash(p);
    if k == 0 then "/" else p[..k]
  }

  /** Cutting p around the '/' at index k and gluing it back gives p. */
  lemma CutAtSlash(p: string, k: int)
    requires 0 <= k < |p| && p[k] == '/'
    ensures p == p[..k] + "/" + p[k + 1..]
  {
  }

  /** LastSlash is the largest index holding a '/': its contract pins it down. */
  lemma LastSlashUnique(p: string, k: int)
    requires -1 <= k < |p|
    requires k >= 0 ==> p[k] == '/'
    requires forall j :: k < j < |p| ==> p[j] != '/'
    ensures LastSlash(p) == k
  {
  }

  /** The last slash of a + b lies in b when b has one, and otherwise in a. */
  lemma LastSlashAppend(a: string, b: string)
    ensures LastSlash(a + b) == if LastSlash(b) >= 0 then |a| + LastSlash(b) else LastSlash(a)
  {
    var k := if LastSlash(b) >= 0 then |a| + LastSlash(b) else LastSlash(a);
    forall j | k < j < |a + b|
      ensures (a + b)[j] != '/'
    {
      if j >= |a| {
        assert (a + b)[j] == b[j - |a|];
      } else {
        assert (a + b)[j] == a[j];
      }
    }
    LastSlashUnique(a + b, k);
  }

  /** A clean path, absolute or relative, other than "/", ends in a name. */
  lemma CleanEndsInName(p: string)
    requires (IsCleanAbs(p) && p != "/") || IsCleanRel(p)
    ensures StripTrailingSlashes(p) == p
    ensures Base(p) == p[LastSlash(p) + 1..]
    ensures IsName(Base(p))
  {
    var k := LastSlash(p);
    var tail := p[k + 1..];
    assert IsName(tail);
    assert p[|p| - 1] == tail[|tail| - 1];
  }

  /** A clean relative path never starts with a slash. */
  lemma {:induction false} CleanRelNoLeadingSlash(n: string)
    requires IsCleanRel(n)
    ensures |n| > 0 && n[0] != '/'
    decreases |n|
  {
    var k := LastSlash(n);
    if k == -1 {
      assert n[0] in n;
    } else {
      CleanRelNoLeadingSlash(n[..k]);
      assert n[0] == n[..k][0];
    }
  }

  /** A path is clean and absolute when it starts with '/', ends in a name and is clean before that name. */
  lemma CleanAbsByLastSlash(p: string, k: int)
    requires |p| >= 2 && p[0] == '/' && LastSlash(p) == k
    requires IsName(p[k + 1..]) && (k == 0 || (k >= 2 && IsCleanAbs(p[..k])))
    ensures IsCleanAbs(p)
  {
  }

  /** The separator Join puts before the name is the last slash of the prefix it builds. */
  lemma JoinPrefixEndsInSlash(d: string)
    ensures var pre := if d == "/" then "/" else d + "/";
            LastSlash(pre) == |pre| - 1
  {
  }

  /** Joining a slash-free name: the slash before it is the last one, and the name is what follows. */
  lemma JoinNameLastSlash(d: string, n: string)
    requires IsName(n)
    ensures LastSlash(Join(d, n)) == |Join(d, n)| - |n| - 1
    ensures Join(d, n)[LastSlash(Join(d, n)) + 1..] == n
  {
    var pre := if d == "/" then "/" else d + "/";
    var r := pre + n;
    assert Join(d, n) == r;
    forall j | |pre| - 1 < j < |r|
      ensures r[j] != '/'
    {
      assert r[j] == n[j - |pre|];
      assert n[j - |pre|] in n;
    }
    LastSlashUnique(r, |pre| - 1);
    assert r[|pre|..] == n;
  }

  /** Joining one name onto a clean absolute directory gives a clean absolute path. */
  lemma JoinName(d: string, n: string)
    requires IsCleanAbs(d) && IsName(n)
    ensures LastSlash(Join(d, n)) == |Join(d, n)| - |n| - 1
    ensures Join(d, n)[LastSlash(Join(d, n)) + 1..] == n
    ensures IsCleanAbs(Join(d, n))
  {
    JoinNameLastSlash(d, n);
    var r := Join(d, n);
    var k := |r| - |n| - 1;
    if d == "/" {
      CleanAbsByLastSlash(r, 0);
    } else {
      assert r[..k] == d;
      CleanAbsByLastSlash(r, k);
    }
  }

  /** Join onto a fixed directory never sends two names to the same path. */
  lemma JoinInjective(d: string, a: string, b: string)
    requires Join(d, a) == Join(d, b)
    ensures a == b
  {
    var pre := if d == "/" then "/" else d + "/";
    assert Join(d, a)[|pre|..] == a;
    assert Join(d, b)[|pre|..] == b;
  }

  /** Joining a two-part relative path is joining its parts one after the other. */
  lemma JoinAssoc(d: string, m: string, n: string)
    requires |m| > 0
    ensures Join(d, m + "/" + n) == Join(Join(d, m), n)
  {
    assert Join(d, m) != "/" by {
      if d == "/" { assert |Join(d, m)| >= 2; } else { assert |Join(d, m)| > |d|; }
    }
  }

  /** Joining a clean relative path onto a clean absolute directory gives a clean absolute path. */
  lemma {:induction false} JoinIsClean(d: string, n: string)
    requires IsCleanAbs(d) && IsCleanRel(n)
    ensures IsCleanAbs(Join(d, n))
    decreases |n|
  {
    var k := LastSlash(n);
    if k == -1 {
      JoinName(d, n);
    } else {
      var m, name := n[..k], n[k + 1..];
      CutAtSlash(n, k);
      JoinIsClean(d, m);
      JoinAssoc(d, m, name);
      JoinName(Join(d, m), name);
    }
  }

  /** Splitting a clean absolute path into Dir and Base and joining them back gives it again. */
  lemma SplitJoin(p: string)
    requires IsCleanAbs(p) && p != "/"
    ensures IsName(Base(p))
    ensures Join(Dir(p), Base(p)) == p
  {
    CleanEndsInName(p);
    var k := LastSlash(p);
    CutAtSlash(p, k);
    if k > 0 {
      assert Dir(p) == p[..k];
      assert |Dir(p)| >= 2;
    }
  }

  /** Dir and Base undo Join of a clean absolute directory and a single name. */
  lemma JoinSplit(d: string, n: string)
    requires IsCleanAbs(d) && IsName(n)
    ensures IsCleanAbs(Join(d, n))
    ensures Dir(Join(d, n)) == d
    ensures Base(Join(d, n)) == n
  {
    JoinName(d, n);
    var r := Join(d, n);
    CleanEndsInName(r);
    if d != "/" {
      assert r[..|d|] == d;
    }
  }

  /** The last element of a relative path survives joining it onto a directory. */
  lemma {:induction false} BaseOfJoin(d: string, n: string)
    requires IsCleanAbs(d) && IsCleanRel(n)
    ensures Base(Join(d, n)) == Base(n)
  {
    var k := LastSlash(n);
    if k == -1 {
      JoinSplit(d, n);
      CleanEndsInName(n);
    } else {
      var m, name := n[..k], n[k + 1..];
      CutAtSlash(n, k);
      JoinIsClean(d, m);
      JoinAssoc(d, m, name);
      JoinSplit(Join(d, m), name);
      CleanEndsInName(n);
    }
  }
}
