/** `DirectoryPathNavigation`: the parent of a path and its breadcrumbs, and that climbing by one is
    the inverse of walking down the crumbs. */
module PathNavigation {
  import opened Text

  const SLASH: char := '/'

  // ---------- the parent ----------

  /** `lastIndexOf`: the last slash, or -1. */
  function LastSlash(path: Bytes): (k: int)
    ensures -1 <= k < |path|
  {
    if path == [] then -1
    else if path[|path| - 1] == SLASH then |path| - 1
    else LastSlash(path[..|path| - 1])
  }

  function ParentPath(path: Bytes): Option<Bytes> {
    if path == "" || path == "/" then None
    else if LastSlash(path) > 0 then Some(path[..LastSlash(path)])
    else Some("/")
  }

  lemma {:induction false} BehindLastSlash(path: Bytes)
    ensures LastSlash(path) >= 0 ==> path[LastSlash(path)] == SLASH
    ensures forall i :: LastSlash(path) < i < |path| ==> path[i] != SLASH
  {
    if path != [] && path[|path| - 1] != SLASH {
      var front := path[..|path| - 1];
      BehindLastSlash(front);
      assert forall i :: 0 <= i < |front| ==> path[i] == front[i];
    }
  }

  lemma {:induction false} LastSlashOf(front: Bytes, part: Bytes)
    requires Free(part, SLASH)
    ensures LastSlash(front + "/" + part) == |front|
  {
    var path := front + "/" + part;
    if part != [] {
      LastSlashOf(front, part[..|part| - 1]);
      assert path[..|path| - 1] == front + "/" + part[..|part| - 1];
    }
  }

  // ---------- the crumbs ----------

  datatype Breadcrumb = Breadcrumb(name: Bytes, path: Bytes)

  function PathTo(parts: seq<Bytes>): Bytes {
    if parts == [] then [] else PathTo(parts[..|parts| - 1]) + "/" + parts[|parts| - 1]
  }

  function Crumbs(parts: seq<Bytes>): (crumbs: seq<Breadcrumb>)
    ensures |crumbs| == |parts|
  {
    if parts == [] then []
    else Crumbs(parts[..|parts| - 1]) + [Breadcrumb(parts[|parts| - 1], PathTo(parts))]
  }

  lemma OneMoreCrumb(parts: seq<Bytes>, i: nat)
    requires i < |parts|
    ensures PathTo(parts[..i + 1]) == PathTo(parts[..i]) + ("/" + parts[i])
    ensures Crumbs(parts[..i + 1]) == Crumbs(parts[..i]) + [Breadcrumb(parts[i], PathTo(parts[..i + 1]))]
  {
    assert parts[..i + 1][..i] == parts[..i];
    assert PathTo(parts[..i]) + "/" + parts[i] == PathTo(parts[..i]) + ("/" + parts[i]);
  }

  method Breadcrumbs(path: Bytes) returns (result: seq<Breadcrumb>)
    ensures result == Crumbs(SplitNonEmpty(path, SLASH))
  {
    result := [];
    var currentPath: Bytes := [];
    var pathParts := SplitNonEmpty(path, SLASH);
    for i := 0 to |pathParts|
      invariant currentPath == PathTo(pathParts[..i])
      invariant result == Crumbs(pathParts[..i])
    {
      OneMoreCrumb(pathParts, i);
      currentPath := currentPath + ("/" + pathParts[i]);
      result := result + [Breadcrumb(pathParts[i], currentPath)];
    }
    assert pathParts[..|pathParts|] == pathParts;
  }

  predicate Plain(part: Bytes) {
    part != [] && Free(part, SLASH)
  }

  predicate Proper(parts: seq<Bytes>) {
    forall i :: 0 <= i < |parts| ==> Plain(parts[i])
  }

  lemma PartsAreProper(path: Bytes)
    ensures Proper(SplitNonEmpty(path, SLASH))
  {
    var parts := SplitNonEmpty(path, SLASH);
    forall i | 0 <= i < |parts| ensures Plain(parts[i]) {
      assert parts[i] in parts;
    }
  }

  /** Each crumb names its part and leads to it. */
  lemma {:induction false} CrumbAt(parts: seq<Bytes>, i: nat)
    requires i < |parts|
    ensures Crumbs(parts)[i] == Breadcrumb(parts[i], PathTo(parts[..i + 1]))
    ensures PathTo(parts[..i + 1]) == PathTo(parts[..i]) + "/" + parts[i]
  {
    assert parts[..i + 1][..i] == parts[..i];
    if i < |parts| - 1 {
      var front := parts[..|parts| - 1];
      CrumbAt(front, i);
      assert front[..i + 1] == parts[..i + 1];
    } else {
      assert parts[..i + 1] == parts;
    }
  }

  // ---------- climbing ----------

  lemma ParentOf(front: Bytes, part: Bytes)
    requires Plain(part)
    ensures ParentPath(front + "/" + part) == Some(if front == [] then "/" else front)
  {
    LastSlashOf(front, part);
    assert (front + "/" + part)[..|front|] == front;
  }

  /** The parent of a crumb's path is the path of the crumb before it, "/" for the first. */
  lemma ParentOfCrumb(parts: seq<Bytes>, i: nat)
    requires Proper(parts) && i < |parts|
    ensures ParentPath(Crumbs(parts)[i].path) == Some(if i == 0 then "/" else Crumbs(parts)[i - 1].path)
  {
    CrumbAt(parts, i);
    ParentOf(PathTo(parts[..i]), parts[i]);
    if i > 0 {
      CrumbAt(parts, i - 1);
    }
  }

  /** Where climbing n times leads to; it stops where there is no parent. */
  function Climbed(path: Bytes, n: nat): Bytes
    decreases n
  {
    if n == 0 then path
    else
      match ParentPath(path)
      case None => path
      case Some(parent) => Climbed(parent, n - 1)
  }

  lemma {:induction false} ClimbFromCrumb(parts: seq<Bytes>, i: nat, n: nat)
    requires Proper(parts) && i < |parts| && n <= i + 1
    ensures Climbed(Crumbs(parts)[i].path, n) == if n == i + 1 then "/" else Crumbs(parts)[i - n].path
    decreases n
  {
    if n > 0 {
      ParentOfCrumb(parts, i);
      if i > 0 {
        ClimbFromCrumb(parts, i - 1, n - 1);
      }
    }
  }

  lemma CrumbIsNotRoot(parts: seq<Bytes>, i: nat)
    requires Proper(parts) && i < |parts|
    ensures Crumbs(parts)[i].path != "/"
  {
    CrumbAt(parts, i);
    assert Plain(parts[i]);
  }

  lemma ClimbParts(parts: seq<Bytes>, n: nat)
    requires Proper(parts) && parts != [] && n <= |parts|
    ensures Climbed(Crumbs(parts)[|parts| - 1].path, n) == "/" <==> n == |parts|
  {
    ClimbFromCrumb(parts, |parts| - 1, n);
    if n < |parts| {
      CrumbIsNotRoot(parts, |parts| - 1 - n);
    }
  }

  /** Only the root and the empty path have no parent, and a parent is another path that is not empty. */
  lemma ParentIsAnother(path: Bytes)
    ensures ParentPath(path).None? <==> path == [] || path == ['/']
    ensures ParentPath(path).Some? ==> ParentPath(path).value != path && ParentPath(path).value != []
  {
    BehindLastSlash(path);
    assert LastSlash(path) > 0 ==> |path[..LastSlash(path)]| < |path|;
  }

  lemma {:induction false} ClimbedFurther(path: Bytes, m: nat, n: nat)
    requires Climbed(path, m) == "/" && m <= n
    ensures Climbed(path, n) == "/"
    decreases m
  {
    if m == 0 {
      ParentIsAnother(path);
    } else if ParentPath(path).Some? {
      ClimbedFurther(ParentPath(path).value, m - 1, n - 1);
    }
  }

  /** For every path: climbing from its last crumb reaches "/" after as many steps as there are
      crumbs and not earlier, and stays there. */
  lemma ClimbReachesRoot(path: Bytes, n: nat)
    requires SplitNonEmpty(path, SLASH) != []
    ensures var crumbs := Crumbs(SplitNonEmpty(path, SLASH));
            Climbed(crumbs[|crumbs| - 1].path, n) == "/" <==> n >= |crumbs|
  {
    var parts := SplitNonEmpty(path, SLASH);
    PartsAreProper(path);
    if n < |parts| {
      ClimbParts(parts, n);
    } else {
      ClimbParts(parts, |parts|);
      ClimbedFurther(Crumbs(parts)[|parts| - 1].path, |parts|, n);
    }
  }

  // ---------- walking down again ----------

  lemma Regrouped(h: Bytes, rest: Bytes, b: Bytes)
    ensures h + ['/'] + rest + "/" + b == h + ['/'] + (rest + "/" + b)
  {
  }

  lemma SplitOnePart(a: Bytes, b: Bytes)
    requires Free(a, SLASH)
    ensures SplitNonEmpty(a + "/" + b, SLASH) == SplitNonEmpty(a, SLASH) + SplitNonEmpty(b, SLASH)
  {
    SplitToken(a, SLASH, b);
    assert a + "/" + b == a + ['/'] + b;
    if a != [] {
      SplitLastToken(a, SLASH);
    }
  }

  lemma Associates(a: seq<Bytes>, b: seq<Bytes>, c: seq<Bytes>)
    ensures a + b + c == a + (b + c)
  {
  }

  /** A slash between two texts separates their parts. */
  lemma {:induction false} SplitAtSlash(a: Bytes, b: Bytes)
    ensures SplitNonEmpty(a + "/" + b, SLASH) == SplitNonEmpty(a, SLASH) + SplitNonEmpty(b, SLASH)
    decreases |a|
  {
    var h := Head(a, SLASH);
    if |h| == |a| {
      assert h == a;
      SplitOnePart(a, b);
    } else {
      var first: seq<Bytes>, rest := if h == [] then [] else [h], a[|h| + 1..];
      SplitAtNextSlash(a, h, b);
      SplitAtSlash(rest, b);
      Associates(first, SplitNonEmpty(rest, SLASH), SplitNonEmpty(b, SLASH));
    }
  }

  lemma SplitAtNextSlash(a: Bytes, h: Bytes, b: Bytes)
    requires |h| < |a| && h == a[..|h|] && a[|h|] == SLASH && Free(h, SLASH)
    ensures var first: seq<Bytes>, rest := if h == [] then [] else [h], a[|h| + 1..];
            && SplitNonEmpty(a, SLASH) == first + SplitNonEmpty(rest, SLASH)
            && SplitNonEmpty(a + "/" + b, SLASH) == first + SplitNonEmpty(rest + "/" + b, SLASH)
  {
    var rest := a[|h| + 1..];
    assert a == h + ['/'] + rest;
    SplitToken(h, SLASH, rest);
    Regrouped(h, rest, b);
    SplitToken(h, SLASH, rest + "/" + b);
  }

  lemma PlainIsOnePart(part: Bytes)
    requires Plain(part)
    ensures SplitNonEmpty(part, SLASH) == [part]
  {
    SplitLastToken(part, SLASH);
  }

  lemma PartAppended(front: Bytes, part: Bytes)
    requires Plain(part)
    ensures SplitNonEmpty(front + "/" + part, SLASH) == SplitNonEmpty(front, SLASH) + [part]
  {
    SplitAtSlash(front, part);
    PlainIsOnePart(part);
  }

  lemma SlashAppended(front: Bytes)
    ensures SplitNonEmpty(front + "/", SLASH) == SplitNonEmpty(front, SLASH)
  {
    SplitAtSlash(front, []);
    assert front + "/" + [] == front + "/";
  }

  lemma {:induction false} PartsOfPath(parts: seq<Bytes>)
    requires Proper(parts)
    ensures SplitNonEmpty(PathTo(parts), SLASH) == parts
  {
    if parts != [] {
      var front, last := parts[..|parts| - 1], parts[|parts| - 1];
      assert parts == front + [last] && Plain(last);
      PartsOfPath(front);
      PartAppended(PathTo(front), last);
    }
  }

  lemma {:induction false} CrumbsOfFront(parts: seq<Bytes>, n: nat)
    requires n <= |parts|
    ensures Crumbs(parts[..n]) == Crumbs(parts)[..n]
  {
    if n < |parts| {
      CrumbsOfFront(parts[..|parts| - 1], n);
      assert parts[..|parts| - 1][..n] == parts[..n];
    } else {
      assert parts[..n] == parts;
    }
  }

  /** For every path: the breadcrumbs of a crumb's own path are the crumbs up to it, so those of the
      last crumb are the same list again. */
  lemma CrumbsOfCrumb(path: Bytes, i: nat)
    requires i < |SplitNonEmpty(path, SLASH)|
    ensures var crumbs := Crumbs(SplitNonEmpty(path, SLASH));
            Crumbs(SplitNonEmpty(crumbs[i].path, SLASH)) == crumbs[..i + 1]
  {
    var parts := SplitNonEmpty(path, SLASH);
    PartsAreProper(path);
    CrumbAt(parts, i);
    PartsOfPath(parts[..i + 1]);
    CrumbsOfFront(parts, i + 1);
  }

  /** On any path at all, also one with doubled or missing slashes: going to the parent takes away
      the last part exactly when the path does not end in a slash; otherwise it only takes that
      slash away and the parts stay. */
  lemma ParentDropsLastPartExactlyWhen(path: Bytes)
    requires ParentPath(path).Some? && SplitNonEmpty(path, SLASH) != []
    ensures var parts, up := SplitNonEmpty(path, SLASH), SplitNonEmpty(ParentPath(path).value, SLASH);
            up == if path[|path| - 1] == SLASH then parts else parts[..|parts| - 1]
  {
    var k := LastSlash(path);
    BehindLastSlash(path);
    if k < 0 {
      PlainIsOnePart(path);
      assert ParentPath(path) == Some("/");
      SlashAppended([]);
      assert [] + "/" == "/";
    } else {
      PartsBehindSlash(path, k);
      if k == 0 {
        SlashAppended([]);
        assert [] + "/" == "/" && path[..k] == [];
      }
    }
  }

  /** A path whose last slash is at k, taken apart. */
  lemma AtLastSlash(path: Bytes, k: nat)
    requires k < |path| && path[k] == SLASH && forall i :: k < i < |path| ==> path[i] != SLASH
    ensures path == if k == |path| - 1 then path[..k] + "/" else path[..k] + "/" + path[k + 1..]
    ensures k < |path| - 1 ==> Plain(path[k + 1..])
  {
    var last := path[k + 1..];
    assert forall i :: 0 <= i < |last| ==> last[i] == path[k + 1 + i];
  }

  /** The parts of a path whose last slash is known. */
  lemma PartsBehindSlash(path: Bytes, k: nat)
    requires k < |path| && path[k] == SLASH && forall i :: k < i < |path| ==> path[i] != SLASH
    ensures k == |path| - 1 ==> SplitNonEmpty(path, SLASH) == SplitNonEmpty(path[..k], SLASH)
    ensures k < |path| - 1 ==> SplitNonEmpty(path, SLASH) == SplitNonEmpty(path[..k], SLASH) + [path[k + 1..]]
  {
    AtLastSlash(path, k);
    if k == |path| - 1 {
      SlashAppended(path[..k]);
    } else {
      PartAppended(path[..k], path[k + 1..]);
    }
  }
  // ---------- the path that is shown ----------

  /** A path from the root without doubled slashes and without one at its end. */
  predicate Normal(path: Bytes) {
    && path != [] && path[0] == SLASH && path[|path| - 1] != SLASH
    && forall i :: 0 < i < |path| ==> path[i - 1] != SLASH || path[i] != SLASH
  }

  lemma OnePartMore(front: Bytes, part: Bytes)
    requires Plain(part) && (front == [] || Normal(front))
    ensures Normal(front + "/" + part)
  {
    var path := front + "/" + part;
    forall i | 0 < i < |path| ensures path[i - 1] != SLASH || path[i] != SLASH {
      if i < |front| {
        assert path[i - 1] == front[i - 1] && path[i] == front[i];
      } else if i > |front| {
        assert path[i] == part[i - |front| - 1];
      } else {
        assert path[i - 1] == front[i - 1];
      }
    }
    assert path[0] == if front == [] then SLASH else front[0];
    assert path[|path| - 1] == part[|part| - 1];
  }

  lemma {:induction false} JoinedIsNormal(parts: seq<Bytes>)
    requires Proper(parts) && parts != []
    ensures Normal(PathTo(parts))
  {
    var front, last := parts[..|parts| - 1], parts[|parts| - 1];
    if front != [] {
      JoinedIsNormal(front);
    }
    OnePartMore(PathTo(front), last);
  }

  lemma {:induction false} NormalIsJoined(path: Bytes)
    requires Normal(path)
    ensures SplitNonEmpty(path, SLASH) != [] && PathTo(SplitNonEmpty(path, SLASH)) == path
    decreases |path|
  {
    var k := LastSlash(path);
    BehindLastSlash(path);
    assert k >= 0 && k < |path| - 1;
    PartsBehindSlash(path, k);
    AtLastSlash(path, k);
    var front := path[..k];
    if k > 0 {
      assert front[|front| - 1] == path[k - 1] && front[0] == path[0];
      assert forall i :: 0 <= i < |front| ==> front[i] == path[i];
      NormalIsJoined(front);
    } else {
      assert front == [];
    }
    var parts := SplitNonEmpty(front, SLASH);
    assert (parts + [path[k + 1..]])[..|parts|] == parts;
  }

  /** The last crumb leads to the path itself exactly when the path starts at the root, doubles no
      slash and does not end in one. */
  lemma LastCrumbIsPathExactlyWhen(path: Bytes)
    requires SplitNonEmpty(path, SLASH) != []
    ensures var crumbs := Crumbs(SplitNonEmpty(path, SLASH));
            crumbs[|crumbs| - 1].path == path <==> Normal(path)
  {
    var parts := SplitNonEmpty(path, SLASH);
    PartsAreProper(path);
    CrumbAt(parts, |parts| - 1);
    assert parts[..|parts|] == parts;
    JoinedIsNormal(parts);
    if Normal(path) {
      NormalIsJoined(path);
    }
  }
}
