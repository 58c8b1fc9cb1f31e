/**
 * The workspace sandbox: every path a tool touches is resolved against the
 * active workspace root and refused when it escapes the root or names a
 * sensitive file (src/main/services/WorkspaceManager.ts).
 *
 * Paths are strings; POSIX `path.resolve` is modelled as splitting on '/',
 * folding the segments (drop "" and ".", pop on ".."), and rendering the result
 * as "/" followed by the segments joined with '/'. The process working
 * directory, which `path.resolve` consults for a relative root, is taken to be "/".
 */
module Workspace {
  import opened Wrappers
  import opened Strings

  /** The row of the workspace store that the sandbox reads. */
  datatype Workspace = Workspace(id: string, name: string, path: string)

  const NO_ACTIVE_WORKSPACE := "No active workspace"
  const PATH_TRAVERSAL := "Access Denied: Path traversal detected"
  const SENSITIVE_FILE := "Access Denied: Sensitive file"

  // ---------------------------------------------------------------- paths

  predicate IsNormalSegment(x: string) {
    x != "" && x != "." && x != ".." && '/' !in x
  }

  /** A resolved absolute path: segments with no empty, ".", ".." or '/' inside. */
  predicate IsNormalPath(p: seq<string>) {
    forall i :: 0 <= i < |p| ==> IsNormalSegment(p[i])
  }

  predicate IsAbsolute(s: string) {
    |s| > 0 && s[0] == '/'
  }

  /** One step of POSIX normalisation. */
  function Step(base: seq<string>, x: string): seq<string> {
    if x == "" || x == "." then base
    else if x == ".." then (if base == [] then [] else base[..|base| - 1])
    else base + [x]
  }

  /** Fold the segments of a path onto `base`. */
  function Normalize(base: seq<string>, segs: seq<string>): seq<string>
    decreases |segs|
  {
    if segs == [] then base else Normalize(Step(base, segs[0]), segs[1..])
  }

  function Segments(s: string): seq<string> {
    SplitOn(s, "/")
  }

  /** `path.resolve(p)`. */
  function ResolveOne(p: string): seq<string> {
    Normalize([], Segments(p))
  }

  /** `path.resolve(root, p)`: an absolute `p` restarts from "/". */
  function Resolve(root: string, p: string): seq<string> {
    if IsAbsolute(p) then ResolveOne(p) else Normalize(ResolveOne(root), Segments(p))
  }

  /** The string form of a resolved path. */
  function Render(p: seq<string>): string {
    "/" + Join(p, "/")
  }

  function CommonPrefixLength(a: seq<string>, b: seq<string>): (k: nat)
    ensures k <= |a| && k <= |b| && a[..k] == b[..k]
    ensures k < |a| && k < |b| ==> a[k] != b[k]
    decreases |a|
  {
    if a == [] || b == [] || a[0] != b[0] then 0
    else
      var k := CommonPrefixLength(a[1..], b[1..]);
      assert a[..k + 1] == [a[0]] + a[1..][..k];
      assert b[..k + 1] == [b[0]] + b[1..][..k];
      k + 1
  }

  function Ups(n: nat): (r: seq<string>)
    ensures |r| == n && forall i :: 0 <= i < n ==> r[i] == ".."
  {
    seq(n, _ => "..")
  }

  /** `path.relative(from, to)` for two resolved paths. */
  function Relative(from: seq<string>, to: seq<string>): string {
    var k := CommonPrefixLength(from, to);
    Join(Ups(|from| - k) + to[k..], "/")
  }

  predicate IsPrefix(a: seq<string>, b: seq<string>) {
    |a| <= |b| && b[..|a|] == a
  }

  // ---------------------------------------------------------- sensitive files

  /** The shapes of the five regular expressions in SENSITIVE_PATTERNS. */
  datatype Pattern =
    | EndsWithText(suffix: string)            // /suffix$/
    | EndsWithTextThenAnyChar(prefix: string) // /prefix.$/
    | ContainsText(infix: string)             // /infix/

  const SENSITIVE_PATTERNS: seq<Pattern> := [
    EndsWithText(".env"),
    EndsWithTextThenAnyChar(".env."),
    EndsWithText(".git/config"),
    EndsWithText("id_rsa"),
    ContainsText(".ssh/")
  ]

  /** The characters a regular-expression `.` does not match. */
  predicate IsLineTerminator(c: char) {
    c == '\n' || c == '\r' || c == '\U{2028}' || c == '\U{2029}'
  }

  /** `pattern.test(s)`. */
  predicate Matches(pattern: Pattern, s: string) {
    match pattern
    case EndsWithText(t) => EndsWith(s, t)
    case EndsWithTextThenAnyChar(t) =>
      |t| < |s| && s[|s| - 1 - |t|..|s| - 1] == t && !IsLineTerminator(s[|s| - 1])
    case ContainsText(t) => IndexOf(s, t) >= 0
  }

  /** `patterns.some(p => p.test(s))`. */
  predicate AnyMatches(patterns: seq<Pattern>, s: string)
    decreases |patterns|
  {
    patterns != [] && (Matches(patterns[0], s) || AnyMatches(patterns[1..], s))
  }

  predicate IsSensitiveFile(filePath: string) {
    AnyMatches(SENSITIVE_PATTERNS, filePath)
  }

  lemma AnyMatchesCons(ps: seq<Pattern>, s: string)
    requires ps != []
    ensures AnyMatches(ps, s) == (Matches(ps[0], s) || AnyMatches(ps[1..], s))
  {
  }

  /** `some` over the five patterns is their disjunction. */
  lemma SensitivePatternsUnrolled(s: string)
    ensures IsSensitiveFile(s) <==>
      || Matches(EndsWithText(".env"), s)
      || Matches(EndsWithTextThenAnyChar(".env."), s)
      || Matches(EndsWithText(".git/config"), s)
      || Matches(EndsWithText("id_rsa"), s)
      || Matches(ContainsText(".ssh/"), s)
  {
    var ps := SENSITIVE_PATTERNS;
    AnyMatchesCons(ps, s);
    AnyMatchesCons(ps[1..], s);
    AnyMatchesCons(ps[2..], s);
    AnyMatchesCons(ps[3..], s);
    AnyMatchesCons(ps[4..], s);
    assert ps[1..][1..] == ps[2..];
    assert ps[2..][1..] == ps[3..];
    assert ps[3..][1..] == ps[4..];
    assert ps[4..][1..] == [];
  }

  /** The five patterns, spelled out. */
  lemma IsSensitiveFileIff(s: string)
    ensures IsSensitiveFile(s) <==>
      || EndsWith(s, ".env")
      || (|s| >= 6 && s[|s| - 6..|s| - 1] == ".env." && !IsLineTerminator(s[|s| - 1]))
      || EndsWith(s, ".git/config")
      || EndsWith(s, "id_rsa")
      || Contains(s, ".ssh/")
  {
    SensitivePatternsUnrolled(s);
    assert IndexOf(s, ".ssh/") >= 0 <==> Contains(s, ".ssh/") by {
      var r := IndexOf(s, ".ssh/");
      if r >= 0 { assert OccursAt(s, ".ssh/", r); }
    }
  }

  // ------------------------------------------------------------- the sandbox

  /** Does `path.relative(root, resolved)` start with ".." or is it absolute? */
  predicate EscapesRoot(root: seq<string>, resolved: seq<string>) {
    var rel := Relative(root, resolved);
    StartsWith(rel, "..") || IsAbsolute(rel)
  }

  /** `resolvePath(relativePath)` against the active workspace, if any. */
  function ResolvePath(active: Option<Workspace>, relativePath: string): Result<string> {
    match active
    case None => Err(NO_ACTIVE_WORKSPACE)
    case Some(w) =>
      var resolved := Resolve(w.path, relativePath);
      if EscapesRoot(ResolveOne(w.path), resolved) then Err(PATH_TRAVERSAL)
      else if IsSensitiveFile(Render(resolved)) then Err(SENSITIVE_FILE)
      else Ok(Render(resolved))
  }

  /** `isPathInWorkspace(filePath, workspaceId)`, the store given as a map by id. */
  predicate IsPathInWorkspace(filePath: string, workspaceId: string, byId: map<string, Workspace>) {
    workspaceId in byId
    && StartsWith(Render(ResolveOne(filePath)), Render(ResolveOne(byId[workspaceId].path)))
  }

  // ------------------------------------------------------ normalisation facts

  lemma {:induction false} NormalizeAppend(base: seq<string>, a: seq<string>, b: seq<string>)
    ensures Normalize(base, a + b) == Normalize(Normalize(base, a), b)
    decreases |a|
  {
    if a != [] {
      assert (a + b)[1..] == a[1..] + b;
      NormalizeAppend(Step(base, a[0]), a[1..], b);
    } else {
      assert a + b == b;
    }
  }

  /** Normalisation keeps a normal base normal when no segment holds a '/'. */
  lemma {:induction false} NormalizeIsNormal(base: seq<string>, segs: seq<string>)
    requires IsNormalPath(base)
    requires forall i :: 0 <= i < |segs| ==> '/' !in segs[i]
    ensures IsNormalPath(Normalize(base, segs))
    decreases |segs|
  {
    if segs != [] {
      NormalizeIsNormal(Step(base, segs[0]), segs[1..]);
    }
  }

  /** Normal segments are appended as they are. */
  lemma {:induction false} NormalizeOfNormal(base: seq<string>, xs: seq<string>)
    requires IsNormalPath(xs)
    ensures Normalize(base, xs) == base + xs
    decreases |xs|
  {
    if xs != [] {
      NormalizeOfNormal(base + [xs[0]], xs[1..]);
      assert base + [xs[0]] + xs[1..] == base + xs;
    }
  }

  lemma ResolveOneIsNormal(p: string)
    ensures IsNormalPath(ResolveOne(p))
  {
    SplitOnPiecesFree(p, '/');
    NormalizeIsNormal([], Segments(p));
  }

  lemma ResolveIsNormal(root: string, p: string)
    ensures IsNormalPath(Resolve(root, p))
  {
    ResolveOneIsNormal(p);
    ResolveOneIsNormal(root);
    SplitOnPiecesFree(p, '/');
    NormalizeIsNormal(ResolveOne(root), Segments(p));
  }

  /** Resolving a rendered path gives its segments back: `path.resolve` is
      the identity on its own results. */
  lemma ResolveOneOfRender(p: seq<string>)
    requires IsNormalPath(p)
    ensures ResolveOne(Render(p)) == p
  {
    if p == [] {
      assert Render(p) == [] + ['/'] + [];
      SplitOnFreePrefix([], '/', []);
      var segs := Segments(Render(p));
      assert segs == [[], []];
      assert Normalize([], segs) == Normalize([], segs[1..]);
      assert segs[1..][1..] == [];
    } else {
      assert Render(p) == [] + ['/'] + Join(p, "/");
      SplitOnFreePrefix([], '/', Join(p, "/"));
      SplitOnJoin(p, '/');
      assert Segments(Render(p)) == [[]] + p;
      assert ([[]] + p)[1..] == p;
      NormalizeOfNormal([], p);
    }
  }

  lemma RenderAppendStartsWith(a: seq<string>, b: seq<string>)
    ensures StartsWith(Render(a + b), Render(a))
  {
    if a == [] {
      assert a + b == b;
    } else if b != [] {
      JoinAppend(a, b, "/");
      assert Render(a + b) == Render(a) + "/" + Join(b, "/");
    } else {
      assert a + b == a;
    }
  }

  // -------------------------------------------------------- relative paths

  lemma CommonPrefixOfPrefix(a: seq<string>, b: seq<string>)
    ensures IsPrefix(a, b) <==> CommonPrefixLength(a, b) == |a|
  {
  }

  /** The first segment decides whether a joined relative path starts with "..". */
  lemma JoinStartsWithDots(xs: seq<string>)
    requires |xs| >= 1 && IsNormalPath(xs)
    ensures StartsWith(Join(xs, "/"), "..") <==> StartsWith(xs[0], "..")
  {
    if |xs| > 1 {
      JoinCons(xs[0], xs[1..], "/");
      assert xs == [xs[0]] + xs[1..];
      var j := Join(xs, "/");
      assert j == xs[0] + "/" + Join(xs[1..], "/");
      if |xs[0]| == 1 {
        assert j[1] == '/';
      } else {
        assert j[..2] == xs[0][..2];
      }
    }
  }

  lemma JoinUpsStartsWithDots(n: nat, rest: seq<string>)
    requires n >= 1
    ensures StartsWith(Join(Ups(n) + rest, "/"), "..")
  {
    var xs := Ups(n) + rest;
    if |xs| > 1 {
      JoinCons(xs[0], xs[1..], "/");
      assert xs == [xs[0]] + xs[1..];
    }
  }

  /** `path.relative` never returns an absolute path on POSIX, so the
      `isAbsolute` half of the traversal test never fires. */
  lemma {:induction false} RelativeNeverAbsolute(root: seq<string>, p: seq<string>)
    requires IsNormalPath(p)
    ensures !IsAbsolute(Relative(root, p))
  {
    var k := CommonPrefixLength(root, p);
    var xs := Ups(|root| - k) + p[k..];
    if |xs| > 1 {
      JoinCons(xs[0], xs[1..], "/");
      assert xs == [xs[0]] + xs[1..];
    }
    if |xs| >= 1 {
      assert xs[0] == ".." || IsNormalSegment(xs[0]);
      assert xs[0][0] != '/';
    }
  }

  /** The traversal test, as a statement about segments: a resolved path is
      refused exactly when it is not below the root, or when its first
      segment below the root begins with ".." (the raw string test also
      catches a child named "..foo"). */
  lemma EscapesRootIff(root: seq<string>, p: seq<string>)
    requires IsNormalPath(root) && IsNormalPath(p)
    ensures EscapesRoot(root, p) <==>
      !IsPrefix(root, p) || (|p| > |root| && StartsWith(p[|root|], ".."))
  {
    RelativeNeverAbsolute(root, p);
    var k := CommonPrefixLength(root, p);
    CommonPrefixOfPrefix(root, p);
    if k == |root| {
      assert Ups(0) + p[k..] == p[k..];
      if |p| > |root| {
        JoinStartsWithDots(p[k..]);
      } else {
        assert Relative(root, p) == "";
      }
    } else {
      JoinUpsStartsWithDots(|root| - k, p[k..]);
    }
  }

  // ------------------------------------------------------------ the results

  lemma ResolvePathWithoutWorkspace(relativePath: string)
    ensures ResolvePath(None, relativePath) == Err(NO_ACTIVE_WORKSPACE)
  {
  }

  /** A successful result is the resolved path, lies below the root, does not
      begin with a ".."-named child, and is not a sensitive file. */
  lemma ResolvePathOk(w: Workspace, relativePath: string, r: string)
    requires ResolvePath(Some(w), relativePath) == Ok(r)
    ensures r == Render(Resolve(w.path, relativePath))
    ensures IsPrefix(ResolveOne(w.path), Resolve(w.path, relativePath))
    ensures var root := ResolveOne(w.path);
            var p := Resolve(w.path, relativePath);
            |p| > |root| ==> !StartsWith(p[|root|], "..")
    ensures !IsSensitiveFile(r)
  {
    ResolveOneIsNormal(w.path);
    ResolveIsNormal(w.path, relativePath);
    EscapesRootIff(ResolveOne(w.path), Resolve(w.path, relativePath));
  }

  /** The outcome of `resolvePath` with an active workspace, case by case:
      the traversal test comes first, then the sensitive-file test. */
  lemma ResolvePathCases(w: Workspace, relativePath: string)
    ensures var root := ResolveOne(w.path);
            var p := Resolve(w.path, relativePath);
            var outside := !IsPrefix(root, p) || (|p| > |root| && StartsWith(p[|root|], ".."));
            ResolvePath(Some(w), relativePath) ==
              if outside then Err(PATH_TRAVERSAL)
              else if IsSensitiveFile(Render(p)) then Err(SENSITIVE_FILE)
              else Ok(Render(p))
  {
    ResolveOneIsNormal(w.path);
    ResolveIsNormal(w.path, relativePath);
    EscapesRootIff(ResolveOne(w.path), Resolve(w.path, relativePath));
  }

  /** A relative path made of ordinary segments resolves to the root followed
      by those segments. */
  lemma ResolveInside(w: Workspace, xs: seq<string>)
    requires |xs| >= 1 && IsNormalPath(xs) && !StartsWith(xs[0], "..")
    ensures Resolve(w.path, Join(xs, "/")) == ResolveOne(w.path) + xs
    ensures ResolvePath(Some(w), Join(xs, "/")) ==
      if IsSensitiveFile(Render(ResolveOne(w.path) + xs)) then Err(SENSITIVE_FILE)
      else Ok(Render(ResolveOne(w.path) + xs))
  {
    var rel := Join(xs, "/");
    var root := ResolveOne(w.path);
    JoinNotAbsolute(xs);
    SplitOnJoin(xs, '/');
    NormalizeOfNormal(root, xs);
    assert Resolve(w.path, rel) == root + xs;
    ResolvePathCases(w, rel);
    assert (root + xs)[..|root|] == root;
    assert (root + xs)[|root|] == xs[0];
  }

  lemma JoinNotAbsolute(xs: seq<string>)
    requires |xs| >= 1 && IsNormalPath(xs)
    ensures !IsAbsolute(Join(xs, "/"))
  {
    if |xs| > 1 {
      JoinCons(xs[0], xs[1..], "/");
      assert xs == [xs[0]] + xs[1..];
    }
    assert Join(xs, "/")[0] == xs[0][0];
  }

  /** Every path `resolvePath` returns passes `isPathInWorkspace` for the
      workspace it was resolved against, so the edit tool's second check can
      fail only when the store disagrees with the active workspace. */
  lemma ResolvedPathIsInWorkspace(w: Workspace, relativePath: string, r: string, byId: map<string, Workspace>)
    requires ResolvePath(Some(w), relativePath) == Ok(r)
    requires w.id in byId && byId[w.id].path == w.path
    ensures IsPathInWorkspace(r, w.id, byId)
  {
    ResolvePathOk(w, relativePath, r);
    var root := ResolveOne(w.path);
    var p := Resolve(w.path, relativePath);
    ResolveIsNormal(w.path, relativePath);
    ResolveOneOfRender(p);
    assert p == root + p[|root|..];
    RenderAppendStartsWith(root, p[|root|..]);
  }

  // ------------------------------------------------------------- examples

  const TEST_ROOT := Workspace("test-id", "Test Workspace", "/tmp/test-workspace")

  lemma TestRootSegments()
    ensures ResolveOne(TEST_ROOT.path) == ["tmp", "test-workspace"]
  {
    assert TEST_ROOT.path == Render(["tmp", "test-workspace"]);
    ResolveOneOfRender(["tmp", "test-workspace"]);
  }

  /** A string lacking one of `t`'s characters does not contain `t`. */
  lemma AbsentWhenCharMissing(s: string, t: string, c: char)
    requires c in t && c !in s
    ensures IndexOf(s, t) < 0
  {
  }

  /** The example paths of the workspace tests are not sensitive: their last
      two characters rule out the four suffix patterns, and none holds an 'h',
      so none contains ".ssh/". */
  lemma NotSensitiveByShape(s: string)
    requires |s| >= 2 && s[|s| - 1] !in "vga" && s[|s| - 2] != '.'
    requires 'h' !in s
    ensures !IsSensitiveFile(s)
  {
    SensitivePatternsUnrolled(s);
    AbsentWhenCharMissing(s, ".ssh/", 'h');
  }

  lemma JoinFour(a: string, b: string, c: string, d: string, sep: string)
    ensures Join([a, b, c, d], sep) == a + sep + b + sep + c + sep + d
  {
    JoinCons(c, [d], sep);
    assert [c, d] == [c] + [d];
    JoinCons(b, [c, d], sep);
    assert [b, c, d] == [b] + [c, d];
    JoinCons(a, [b, c, d], sep);
    assert [a, b, c, d] == [a] + [b, c, d];
  }

  /** An ordinary relative path below the test root that is not sensitive
      resolves to the root joined with it. */
  lemma ExampleResolves(xs: seq<string>, rel: string, r: string)
    requires |xs| >= 1 && IsNormalPath(xs) && !StartsWith(xs[0], "..")
    requires rel == Join(xs, "/") && r == Render(["tmp", "test-workspace"] + xs)
    requires !IsSensitiveFile(r)
    ensures ResolvePath(Some(TEST_ROOT), rel) == Ok(r)
  {
    TestRootSegments();
    ResolveInside(TEST_ROOT, xs);
  }

  lemma MainTsNotSensitive()
    ensures !IsSensitiveFile("/tmp/test-workspace/src/main.ts")
  {
    var s := "/tmp/test-workspace/src/main.ts";
    assert 'h' !in s;
    assert s[|s| - 1] == 's' && s[|s| - 2] == 't';
    NotSensitiveByShape(s);
  }

  lemma MainTsPieces()
    ensures "src/main.ts" == Join(["src", "main.ts"], "/")
    ensures IsNormalPath(["src", "main.ts"]) && !StartsWith("src", "..")
  {
    assert "src"[..2] == "sr";
  }

  lemma MainTsRendered()
    ensures "/tmp/test-workspace/src/main.ts" == Render(["tmp", "test-workspace"] + ["src", "main.ts"])
  {
    assert ["tmp", "test-workspace"] + ["src", "main.ts"] == ["tmp", "test-workspace", "src", "main.ts"];
    JoinFour("tmp", "test-workspace", "src", "main.ts", "/");
    MainTsSpelled();
  }

  lemma MainTsSpelled()
    ensures "/tmp/test-workspace/src/main.ts" == "/" + ("tmp" + "/" + "test-workspace" + "/" + "src" + "/" + "main.ts")
  {
    RootSpelled();
    MainTsTailSpelled();
    MainTsHalves();
  }

  lemma RootSpelled()
    ensures "/tmp/test-workspace" == "/" + "tmp" + "/" + "test-workspace"
  {
  }

  lemma MainTsTailSpelled()
    ensures "/src/main.ts" == "/" + "src" + "/" + "main.ts"
  {
  }

  lemma MainTsHalves()
    ensures "/tmp/test-workspace/src/main.ts" == "/tmp/test-workspace" + "/src/main.ts"
  {
  }

  /** "src/main.ts" resolves to the root joined with it. */
  lemma MainTsResolvesBelowRoot()
    ensures ResolvePath(Some(TEST_ROOT), "src/main.ts") == Ok("/tmp/test-workspace/src/main.ts")
  {
    MainTsPieces();
    MainTsRendered();
    MainTsNotSensitive();
    ExampleResolves(["src", "main.ts"], "src/main.ts", "/tmp/test-workspace/src/main.ts");
  }

  /** A character in no piece and not in the separator is not in the join. */
  lemma {:induction false} CharNotInJoin(xs: seq<string>, sep: string, c: char)
    requires c !in sep && forall i :: 0 <= i < |xs| ==> c !in xs[i]
    ensures c !in Join(xs, sep)
    decreases |xs|
  {
    if |xs| > 1 {
      CharNotInJoin(xs[1..], sep, c);
    }
  }

  /** A join ends with its last piece. */
  lemma {:induction false} JoinEndsWithLast(xs: seq<string>, sep: string)
    requires |xs| >= 1
    ensures EndsWith(Join(xs, sep), xs[|xs| - 1])
    decreases |xs|
  {
    if |xs| > 1 {
      JoinEndsWithLast(xs[1..], sep);
    }
  }

  lemma ButtonNotSensitive()
    ensures !IsSensitiveFile(Render(["tmp", "test-workspace", "src", "components", "Button.tsx"]))
  {
    var ys := ["tmp", "test-workspace", "src", "components", "Button.tsx"];
    var r := Render(ys);
    assert 'h' !in ys[0] && 'h' !in ys[1] && 'h' !in ys[2] && 'h' !in ys[3] && 'h' !in ys[4];
    CharNotInJoin(ys, "/", 'h');
    JoinEndsWithLast(ys, "/");
    assert r[|r| - 1] == 'x' && r[|r| - 2] == 's';
    NotSensitiveByShape(r);
  }

  lemma ButtonPieces()
    ensures IsNormalPath(["src", "components", "Button.tsx"]) && !StartsWith("src", "..")
    ensures ["tmp", "test-workspace"] + ["src", "components", "Button.tsx"] ==
            ["tmp", "test-workspace", "src", "components", "Button.tsx"]
  {
    assert "src"[..2] == "sr";
  }

  /** "src/components/Button.tsx" resolves to the root joined with it. */
  lemma ButtonResolvesBelowRoot()
    ensures ResolvePath(Some(TEST_ROOT), Join(["src", "components", "Button.tsx"], "/")) ==
            Ok(Render(["tmp", "test-workspace", "src", "components", "Button.tsx"]))
  {
    ButtonPieces();
    ButtonNotSensitive();
    TestRootSegments();
    ResolveInside(TEST_ROOT, ["src", "components", "Button.tsx"]);
  }

  lemma DotDotNormalizes()
    ensures Normalize(["tmp", "test-workspace"], ["..", "..", "etc", "passwd"]) == ["etc", "passwd"]
  {
    var xs := ["..", "..", "etc", "passwd"];
    assert Normalize(["tmp", "test-workspace"], xs) == Normalize(["tmp"], xs[1..]);
    assert Normalize(["tmp"], xs[1..]) == Normalize([], xs[2..]);
    NormalizeOfNormal([], xs[2..]);
  }

  lemma DotDotSegments()
    ensures Segments("../../etc/passwd") == ["..", "..", "etc", "passwd"]
  {
    assert "../../etc/passwd" == Join(["..", "..", "etc", "passwd"], "/");
    SplitOnJoin(["..", "..", "etc", "passwd"], '/');
  }

  /** "../../etc/passwd" climbs out of the root and is refused as traversal. */
  lemma DotDotTraversalRefused()
    ensures ResolvePath(Some(TEST_ROOT), "../../etc/passwd") == Err(PATH_TRAVERSAL)
  {
    TestRootSegments();
    DotDotSegments();
    DotDotNormalizes();
    assert Resolve(TEST_ROOT.path, "../../etc/passwd") == ["etc", "passwd"];
    ResolvePathCases(TEST_ROOT, "../../etc/passwd");
  }

  /** "/etc/passwd" restarts from "/" and is refused as traversal. */
  lemma AbsoluteTraversalRefused()
    ensures ResolvePath(Some(TEST_ROOT), "/etc/passwd") == Err(PATH_TRAVERSAL)
  {
    TestRootSegments();
    EtcPasswdResolves();
    EtcNotBelowTestRoot();
    RefusedWhenNotBelow(TEST_ROOT, "/etc/passwd", ["etc", "passwd"]);
  }

  lemma EtcNotBelowTestRoot()
    ensures !IsPrefix(["tmp", "test-workspace"], ["etc", "passwd"])
  {
    var p := ["etc", "passwd"];
    assert p[..2][0] == "etc" && "etc"[0] != "tmp"[0];
  }

  lemma EtcPasswdResolves()
    ensures Resolve(TEST_ROOT.path, "/etc/passwd") == ["etc", "passwd"]
  {
    assert "/etc/passwd" == Render(["etc", "passwd"]);
    ResolveOneOfRender(["etc", "passwd"]);
  }

  /** A path that resolves to somewhere not below the root is refused as
      traversal. */
  lemma RefusedWhenNotBelow(w: Workspace, relativePath: string, p: seq<string>)
    requires Resolve(w.path, relativePath) == p && !IsPrefix(ResolveOne(w.path), p)
    ensures ResolvePath(Some(w), relativePath) == Err(PATH_TRAVERSAL)
  {
    ResolvePathCases(w, relativePath);
  }

  /** A child whose name merely begins with ".." is refused too. */
  lemma DotDotPrefixedChildRefused(w: Workspace)
    ensures ResolvePath(Some(w), "..foo") == Err(PATH_TRAVERSAL)
  {
    var root := ResolveOne(w.path);
    SplitOnFreePrefix("..foo", '/', []);
    assert Segments("..foo") == ["..foo"];
    assert Resolve(w.path, "..foo") == root + ["..foo"];
    ResolvePathCases(w, "..foo");
    assert (root + ["..foo"])[|root|] == "..foo";
  }

  /** Membership is a raw string prefix: "/ws2/x" counts as inside "/ws". */
  lemma PrefixWithoutSeparatorBoundary()
    ensures IsPathInWorkspace("/ws2/x", "w", map["w" := Workspace("w", "ws", "/ws")])
  {
    assert "/ws2/x" == Render(["ws2", "x"]);
    ResolveOneOfRender(["ws2", "x"]);
    assert "/ws" == Render(["ws"]);
    ResolveOneOfRender(["ws"]);
  }

  lemma UnknownWorkspaceIsOutside(filePath: string, workspaceId: string, byId: map<string, Workspace>)
    requires workspaceId !in byId
    ensures !IsPathInWorkspace(filePath, workspaceId, byId)
  {
  }
}
