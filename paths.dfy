/**
 * The workspace path helpers of src/utils/path.ts: `safePath`,
 * `safeConfigPath` and `relativeToWorkDir`, over a model of POSIX
 * `path.resolve`. The working directory `process.cwd()` is a parameter;
 * the configured `workDir` is that same directory.
 */
module Paths {
  import opened Wrappers
  import opened Strings
  import Validation

  const OutsideWorkspace: string := "路径超出工作区: "
  const OutsideConfigDir: string := "路径超出配置目录: "

  // ------------------------------------------------------------- resolution

  /** A segment that survives normalisation: not empty, not `.` and not `..`. */
  predicate IsName(s: string) {
    s != "" && s != "." && s != ".."
  }

  /** The segment stack after `.`, empty segments and `..` are applied; `..` at the root stays at the root. */
  function Collapse(segs: seq<string>): (r: seq<string>)
    ensures forall i :: 0 <= i < |r| ==> IsName(r[i])
  {
    if segs == [] then []
    else
      var st := Collapse(segs[..|segs| - 1]);
      var last := segs[|segs| - 1];
      if last == "" || last == "." then st
      else if last == ".." then (if st == [] then [] else st[..|st| - 1])
      else st + [last]
  }

  /** The name segments of `segs`, in order. */
  function Names(segs: seq<string>): (r: seq<string>)
    ensures |r| <= |segs|
  {
    if segs == [] then []
    else
      var last := segs[|segs| - 1];
      Names(segs[..|segs| - 1]) + (if last == "" || last == "." then [] else [last])
  }

  /** The path `resolve(base, p)` normalises: `p` alone when it is absolute, else `p` under `base`, itself under the working directory when relative. */
  function Joined(cwd: string, base: string, p: string): string {
    if StartsWith(p, "/") then p
    else if StartsWith(base, "/") then base + "/" + p
    else cwd + "/" + base + "/" + p
  }

  /** `resolve(base, p)`: always absolute, with no empty, `.` or `..` segment and no trailing `/`. */
  function Resolve(cwd: string, base: string, p: string): (r: string)
    ensures StartsWith(r, "/")
  {
    "/" + Join(Collapse(Split(Joined(cwd, base, p), '/')), "/")
  }

  /** `resolve(base)` alone: an empty last argument changes nothing. */
  function ResolveDir(cwd: string, base: string): string {
    Resolve(cwd, base, "")
  }

  // ------------------------------------------------------------ containment

  /** The shared rule of `safePath` and `safeConfigPath`: a resolved path that starts with the resolved base is returned, any other is refused with `message`. */
  function Contained(cwd: string, base: string, path: string, message: string): (r: Result<string, string>)
    ensures r.Success? <==> StartsWith(Resolve(cwd, base, path), ResolveDir(cwd, base))
    ensures r.Success? ==> r.value == Resolve(cwd, base, path)
    ensures r.Failure? ==> r.error == message + path
  {
    var resolved := Resolve(cwd, base, path);
    if StartsWith(resolved, ResolveDir(cwd, base)) then Success(resolved) else Failure(message + path)
  }

  /** `safePath`, as written: the test is a plain string prefix. */
  function SafePath(workDir: string, path: string): (r: Result<string, string>)
    ensures r.Success? <==> StartsWith(Resolve(workDir, workDir, path), ResolveDir(workDir, workDir))
    ensures r.Success? ==> r.value == Resolve(workDir, workDir, path)
    ensures r.Failure? ==> r.error == OutsideWorkspace + path
  {
    Contained(workDir, workDir, path, OutsideWorkspace)
  }

  /** `safeConfigPath`, as written. */
  function SafeConfigPath(cwd: string, baseDir: string, path: string): (r: Result<string, string>)
    ensures r.Success? <==> StartsWith(Resolve(cwd, baseDir, path), ResolveDir(cwd, baseDir))
    ensures r.Success? ==> r.value == Resolve(cwd, baseDir, path)
    ensures r.Failure? ==> r.error == OutsideConfigDir + path
  {
    Contained(cwd, baseDir, path, OutsideConfigDir)
  }

  /** `resolved` is `root` or lies below it, segment by segment. */
  predicate Within(resolved: string, root: string) {
    resolved == root || StartsWith(resolved, root + "/") || (root == "/" && StartsWith(resolved, "/"))
  }

  /** The intended containment rule: the resolved path must be the base or lie below it. */
  function ContainedWithin(cwd: string, base: string, path: string, message: string): (r: Result<string, string>)
    ensures r.Success? <==> Within(Resolve(cwd, base, path), ResolveDir(cwd, base))
    ensures r.Success? ==> r.value == Resolve(cwd, base, path)
    ensures r.Failure? ==> r.error == message + path
  {
    var resolved := Resolve(cwd, base, path);
    if Within(resolved, ResolveDir(cwd, base)) then Success(resolved) else Failure(message + path)
  }

  /** `safePath` with the segment-aware test; the file tools use this one. */
  function SafePathWithin(workDir: string, path: string): (r: Result<string, string>)
    ensures r.Success? <==> Within(Resolve(workDir, workDir, path), ResolveDir(workDir, workDir))
    ensures r.Success? ==> r.value == Resolve(workDir, workDir, path)
    ensures r.Failure? ==> r.error == OutsideWorkspace + path
  {
    ContainedWithin(workDir, workDir, path, OutsideWorkspace)
  }

  /** `safeConfigPath` with the segment-aware test. */
  function SafeConfigPathWithin(cwd: string, baseDir: string, path: string): (r: Result<string, string>)
    ensures r.Success? <==> Within(Resolve(cwd, baseDir, path), ResolveDir(cwd, baseDir))
    ensures r.Success? ==> r.value == Resolve(cwd, baseDir, path)
    ensures r.Failure? ==> r.error == OutsideConfigDir + path
  {
    ContainedWithin(cwd, baseDir, path, OutsideConfigDir)
  }

  /** Which workspace test a file tool applies: `safePath`'s string prefix as written, or the segment-aware test. */
  datatype Containment = AsWritten | SegmentAware

  /** `safePath` under the chosen test: either way an accepted path is the resolved one and starts with the workspace. */
  function WorkspacePath(rule: Containment, workDir: string, path: string): (r: Result<string, string>)
    ensures r.Failure? ==> r.error == OutsideWorkspace + path
    ensures r.Success? ==> r.value == Resolve(workDir, workDir, path)
                           && StartsWith(r.value, ResolveDir(workDir, workDir))
    ensures rule == AsWritten ==>
              (r.Success? <==> StartsWith(Resolve(workDir, workDir, path), ResolveDir(workDir, workDir)))
    ensures rule == SegmentAware ==>
              (r.Success? <==> Within(Resolve(workDir, workDir, path), ResolveDir(workDir, workDir)))
  {
    WithinIsStricter(workDir, workDir, path, OutsideWorkspace);
    match rule
    case AsWritten => SafePath(workDir, path)
    case SegmentAware => SafePathWithin(workDir, path)
  }

  // ----------------------------------------------------------------- lemmas

  /** Segments without `..` only push their names onto the stack. */
  lemma {:induction false} CollapseAppend(a: seq<string>, b: seq<string>)
    requires forall i :: 0 <= i < |b| ==> b[i] != ".."
    ensures Collapse(a + b) == Collapse(a) + Names(b)
  {
    if b == [] {
      assert a + b == a;
    } else {
      var b' := b[..|b| - 1];
      assert (a + b)[..|a + b| - 1] == a + b';
      assert (a + b)[|a + b| - 1] == b[|b| - 1];
      CollapseAppend(a, b');
    }
  }

  /** The full path that `resolve(base)` normalises, once made absolute. */
  function Anchor(cwd: string, base: string): string {
    if StartsWith(base, "/") then base else cwd + "/" + base
  }

  /** A relative path is resolved below the anchor of the base. */
  lemma ResolveSegments(cwd: string, base: string, path: string)
    requires !StartsWith(path, "/")
    ensures ResolveDir(cwd, base) == "/" + Join(Collapse(Split(Anchor(cwd, base), '/')), "/")
    ensures Collapse(Split(Joined(cwd, base, path), '/'))
         == Collapse(Split(Anchor(cwd, base), '/') + Split(path, '/'))
  {
    var x := Anchor(cwd, base);
    assert !StartsWith("", "/");
    assert Joined(cwd, base, path) == x + ['/'] + path;
    assert Joined(cwd, base, "") == x + ['/'] + "";
    SplitConcat(x, path, '/');
    SplitConcat(x, "", '/');
    var s := Split(x, '/');
    assert Split(x + ['/'] + "", '/') == s + [""];
    assert (s + [""])[..|s + [""]| - 1] == s;
  }

  /** Appending name segments to a normalised stack extends its text by a `/` and their join, except at the root. */
  lemma JoinExtends(st: seq<string>, names: seq<string>)
    ensures names == [] ==> "/" + Join(st + names, "/") == "/" + Join(st, "/")
    ensures names != [] && st == [] ==> "/" + Join(st + names, "/") == "/" + Join(names, "/")
    ensures names != [] && st != [] ==>
              "/" + Join(st + names, "/") == "/" + Join(st, "/") + "/" + Join(names, "/")
    ensures names != [] && st == [] ==> "/" + Join(st, "/") == "/"
  {
    if names == [] {
      assert st + names == st;
    } else if st == [] {
      assert st + names == names;
    } else {
      JoinConcat(st, names, "/");
    }
  }

  /** A relative path with no `..` segment resolves to the base followed by its names. */
  lemma DescendingResolve(cwd: string, base: string, path: string)
    requires !StartsWith(path, "/")
    requires forall i :: 0 <= i < |Split(path, '/')| ==> Split(path, '/')[i] != ".."
    ensures var root := ResolveDir(cwd, base);
            var names := Names(Split(path, '/'));
            var resolved := Resolve(cwd, base, path);
            (names == [] ==> resolved == root)
            && (names != [] && root == "/" ==> resolved == "/" + Join(names, "/"))
            && (names != [] && root != "/" ==> resolved == root + "/" + Join(names, "/"))
  {
    var s := Split(Anchor(cwd, base), '/');
    ResolveSegments(cwd, base, path);
    CollapseAppend(s, Split(path, '/'));
    JoinExtends(Collapse(s), Names(Split(path, '/')));
  }

  /** A relative path with no `..` segment is always inside the base, under the segment-aware test. */
  lemma DescendingPathAccepted(workDir: string, path: string)
    requires !StartsWith(path, "/")
    requires forall i :: 0 <= i < |Split(path, '/')| ==> Split(path, '/')[i] != ".."
    ensures SafePathWithin(workDir, path).Success?
    ensures var root := ResolveDir(workDir, workDir);
            var names := Names(Split(path, '/'));
            names != [] && root != "/" ==>
              SafePathWithin(workDir, path).value == root + "/" + Join(names, "/")
  {
    DescendingResolve(workDir, workDir, path);
  }

  /** A path within `root` starts with `root`. */
  lemma WithinStartsWith(resolved: string, root: string)
    requires StartsWith(root, "/")
    requires Within(resolved, root)
    ensures StartsWith(resolved, root)
  {
    if resolved != root && StartsWith(resolved, root + "/") {
      assert resolved[..|root|] == (root + "/")[..|root|];
    }
  }

  /** The segment-aware test never accepts what the string-prefix test refuses, and both give the same path. */
  lemma WithinIsStricter(cwd: string, base: string, path: string, message: string)
    ensures ContainedWithin(cwd, base, path, message).Success? ==>
              Contained(cwd, base, path, message) == ContainedWithin(cwd, base, path, message)
  {
    var resolved := Resolve(cwd, base, path);
    var root := ResolveDir(cwd, base);
    if Within(resolved, root) {
      WithinStartsWith(resolved, root);
    }
  }

  /** The segments of `/p/work2/x`. */
  lemma SplitSibling()
    ensures Split("/p/work2/x", '/') == ["", "p", "work2", "x"]
  {
    var segs := ["", "p", "work2", "x"];
    assert Join(segs, "/") == "/p/work2/x" by {
      assert Join(["x"], "/") == "x";
      assert segs[1..][1..] == ["work2", "x"];
      assert Join(["work2", "x"], "/") == "work2/x";
      assert segs[1..] == ["p", "work2", "x"];
      assert Join(["p", "work2", "x"], "/") == "p/work2/x";
    }
    SplitJoin(segs, '/');
  }

  /** The segments of `/p/work/`. */
  lemma SplitWork()
    ensures Split("/p/work/", '/') == ["", "p", "work", ""]
  {
    var segs := ["", "p", "work", ""];
    assert Join(segs, "/") == "/p/work/" by {
      assert Join([""], "/") == "";
      assert segs[1..][1..] == ["work", ""];
      assert Join(["work", ""], "/") == "work/";
      assert segs[1..] == ["p", "work", ""];
      assert Join(["p", "work", ""], "/") == "p/work/";
    }
    SplitJoin(segs, '/');
  }

  /** `/p/work2/x` normalises to itself. */
  lemma CollapseSibling()
    ensures "/" + Join(Collapse(["", "p", "work2", "x"]), "/") == "/p/work2/x"
  {
    assert Collapse([""]) == [];
    assert ["", "p"][..1] == [""];
    assert Collapse(["", "p"]) == ["p"];
    assert ["", "p", "work2"][..2] == ["", "p"];
    assert Collapse(["", "p", "work2"]) == ["p", "work2"];
    assert ["", "p", "work2", "x"][..3] == ["", "p", "work2"];
    assert Collapse(["", "p", "work2", "x"]) == ["p", "work2", "x"];
    JoinSibling();
  }

  /** The normalised segments of `/p/work2/x` join back to it. */
  lemma JoinSibling()
    ensures "/" + Join(["p", "work2", "x"], "/") == "/p/work2/x"
  {
    assert Join(["x"], "/") == "x";
    assert ["p", "work2", "x"][1..][1..] == ["x"];
    assert Join(["work2", "x"], "/") == "work2/x";
    assert ["p", "work2", "x"][1..] == ["work2", "x"];
    assert Join(["p", "work2", "x"], "/") == "p/work2/x";
  }

  /** `/p/work/` normalises to `/p/work`. */
  lemma CollapseWork()
    ensures "/" + Join(Collapse(["", "p", "work", ""]), "/") == "/p/work"
  {
    assert Collapse([""]) == [];
    assert ["", "p"][..1] == [""];
    assert Collapse(["", "p"]) == ["p"];
    assert ["", "p", "work"][..2] == ["", "p"];
    assert Collapse(["", "p", "work"]) == ["p", "work"];
    assert ["", "p", "work", ""][..3] == ["", "p", "work"];
    assert Collapse(["", "p", "work", ""]) == ["p", "work"];
    assert Join(["work"], "/") == "work";
    assert ["p", "work"][1..] == ["work"];
    assert Join(["p", "work"], "/") == "p/work";
  }

  /** `resolve("/p/work", "/p/work2/x")` is the absolute path itself. */
  lemma ResolveSibling()
    ensures Resolve("/p/work", "/p/work", "/p/work2/x") == "/p/work2/x"
  {
    assert StartsWith("/p/work2/x", "/");
    SplitSibling();
    CollapseSibling();
  }

  /** `resolve("/p/work")` is `/p/work`. */
  lemma ResolveWork()
    ensures ResolveDir("/p/work", "/p/work") == "/p/work"
  {
    assert !StartsWith("", "/") && StartsWith("/p/work", "/");
    assert "/p/work" + "/" + "" == "/p/work/";
    SplitWork();
    CollapseWork();
  }

  /** `/p/work2/x` is not within `/p/work`. */
  lemma SiblingOutside()
    ensures !Within("/p/work2/x", "/p/work")
  {
    var r: string := "/p/work2/x";
    assert r[7] == '2' && ("/p/work" + "/")[7] == '/';
  }

  /** `/p/work2/x` starts with `/p/work`. */
  lemma SiblingPrefix()
    ensures StartsWith("/p/work2/x", "/p/work")
  {
    assert "/p/work2/x"[..7] == "/p/work";
  }

  /** The string-prefix test accepts an absolute path in a sibling directory whose name extends the workspace's. */
  lemma SiblingAccepted()
    ensures SafePath("/p/work", "/p/work2/x") == Success("/p/work2/x")
    ensures !Within("/p/work2/x", "/p/work")
  {
    ResolveSibling();
    ResolveWork();
    SiblingPrefix();
    SiblingOutside();
  }

  /** The segment-aware test refuses that sibling path. */
  lemma SiblingRefused()
    ensures SafePathWithin("/p/work", "/p/work2/x") == Failure(OutsideWorkspace + "/p/work2/x")
  {
    ResolveSibling();
    ResolveWork();
    SiblingOutside();
  }

  // ---------------------------------------------------------------- climbing

  /** The normalised segment stack of the base directory. */
  function BaseStack(cwd: string, base: string): (r: seq<string>)
    ensures forall i :: 0 <= i < |r| ==> IsName(r[i]) && '/' !in r[i]
  {
    CollapseNoSlash(Split(Anchor(cwd, base), '/'));
    Collapse(Split(Anchor(cwd, base), '/'))
  }

  /** Normalised segments carry no `/` when the segments do not. */
  lemma {:induction false} CollapseNoSlash(segs: seq<string>)
    requires forall i :: 0 <= i < |segs| ==> '/' !in segs[i]
    ensures forall i :: 0 <= i < |Collapse(segs)| ==> '/' !in Collapse(segs)[i]
  {
    if segs != [] {
      CollapseNoSlash(segs[..|segs| - 1]);
    }
  }

  /** `k` segments `..`. */
  function Ups(k: nat): (r: seq<string>)
    ensures |r| == k && forall i :: 0 <= i < k ==> r[i] == ".."
  {
    if k == 0 then [] else Ups(k - 1) + [".."]
  }

  /** Each `..` pops one name off the stack, and climbing stops at the root. */
  lemma {:induction false} CollapseUps(a: seq<string>, k: nat)
    ensures var st := Collapse(a);
            Collapse(a + Ups(k)) == st[..if k <= |st| then |st| - k else 0]
  {
    if k == 0 {
      assert a + Ups(0) == a;
    } else {
      CollapseUps(a, k - 1);
      assert (a + Ups(k))[..|a + Ups(k)| - 1] == a + Ups(k - 1);
      assert (a + Ups(k))[|a + Ups(k)| - 1] == "..";
    }
  }

  /** Segments made of `k` leading `..` and then no other `..`: the stack loses `k` names and the remaining names follow. */
  lemma ClimbStack(s: seq<string>, p: seq<string>, k: nat)
    requires k <= |p|
    requires forall i :: 0 <= i < k ==> p[i] == ".."
    requires forall i :: k <= i < |p| ==> p[i] != ".."
    ensures var b := Collapse(s);
            Collapse(s + p) == b[..if k <= |b| then |b| - k else 0] + Names(p[k..])
  {
    assert p[..k] == Ups(k);
    assert s + p == (s + Ups(k)) + p[k..] by {
      assert p == p[..k] + p[k..];
    }
    CollapseAppend(s + Ups(k), p[k..]);
    CollapseUps(s, k);
  }

  /** A relative path made of `k` leading `..` and then no other `..`: the base's stack loses `k` names and the remaining names follow. */
  lemma ClimbResolve(cwd: string, base: string, path: string, k: nat)
    requires !StartsWith(path, "/")
    requires k <= |Split(path, '/')|
    requires forall i :: 0 <= i < k ==> Split(path, '/')[i] == ".."
    requires forall i :: k <= i < |Split(path, '/')| ==> Split(path, '/')[i] != ".."
    ensures var b := BaseStack(cwd, base);
            Collapse(Split(Joined(cwd, base, path), '/'))
              == b[..if k <= |b| then |b| - k else 0] + Names(Split(path, '/')[k..])
  {
    var p := Split(path, '/');
    ResolveSegments(cwd, base, path);
    ClimbStack(Split(Anchor(cwd, base), '/'), p, k);
  }

  /** A stack whose text lies within that of a non-root stack begins with all of it. */
  lemma WithinStack(r: seq<string>, b: seq<string>)
    requires forall i :: 0 <= i < |r| ==> IsName(r[i]) && '/' !in r[i]
    requires forall i :: 0 <= i < |b| ==> IsName(b[i]) && '/' !in b[i]
    requires b != []
    requires Within("/" + Join(r, "/"), "/" + Join(b, "/"))
    ensures |b| <= |r| && r[..|b|] == b
  {
    JoinNamesNotBlank(b);
    var resolved := "/" + Join(r, "/");
    var root := "/" + Join(b, "/");
    if resolved == root {
      assert Join(r, "/") == resolved[1..] == root[1..] == Join(b, "/");
      SameJoin(r, b);
    } else {
      assert |root| >= 2;
      assert StartsWith(resolved, root + "/");
      var rest := PrefixRest(Join(r, "/"), Join(b, "/"));
      JoinBelow(r, b, rest);
    }
  }

  /** Stacks of `/`-free segments with the same text are the same stack. */
  lemma SameJoin(r: seq<string>, b: seq<string>)
    requires forall i :: 0 <= i < |r| ==> '/' !in r[i]
    requires forall i :: 0 <= i < |b| ==> '/' !in b[i]
    requires b != [] && Join(b, "/") != ""
    requires Join(r, "/") == Join(b, "/")
    ensures r == b
  {
    assert r != [];
    SplitJoin(r, '/');
    SplitJoin(b, '/');
  }

  /** What follows a `/`-terminated prefix once the leading `/` of both is dropped. */
  lemma PrefixRest(x: string, y: string) returns (rest: string)
    requires StartsWith("/" + x, "/" + y + "/")
    ensures x == y + "/" + rest
  {
    rest := x[|y| + 1..];
    var s := "/" + x;
    assert s[..|y| + 2] == "/" + y + "/";
    assert x[..|y| + 1] == y + "/" by {
      forall i | 0 <= i < |y| + 1
        ensures x[i] == (y + "/")[i]
      {
        assert x[i] == s[i + 1];
        assert s[..|y| + 2][i + 1] == ("/" + y + "/")[i + 1];
      }
    }
    assert x == x[..|y| + 1] + rest;
  }

  /** A stack whose text extends that of another by `/` and more extends that stack. */
  lemma JoinBelow(r: seq<string>, b: seq<string>, rest: string)
    requires forall i :: 0 <= i < |r| ==> '/' !in r[i]
    requires forall i :: 0 <= i < |b| ==> '/' !in b[i]
    requires b != []
    requires Join(r, "/") == Join(b, "/") + "/" + rest
    ensures r == b + Split(rest, '/')
  {
    assert Join(r, "/") != "";
    assert r != [];
    SplitJoin(r, '/');
    SplitJoin(b, '/');
    assert Join(b, "/") + "/" + rest == Join(b, "/") + ['/'] + rest;
    SplitConcat(Join(b, "/"), rest, '/');
  }

  /** A relative path that climbs `k >= 1` levels above a base other than the root, and does not step straight back into the directory it left, resolves outside the base: the segment-aware tests refuse it. */
  lemma ClimbRefused(cwd: string, base: string, path: string, k: nat)
    requires !StartsWith(path, "/")
    requires 1 <= k <= |Split(path, '/')|
    requires forall i :: 0 <= i < k ==> Split(path, '/')[i] == ".."
    requires forall i :: k <= i < |Split(path, '/')| ==> Split(path, '/')[i] != ".."
    requires BaseStack(cwd, base) != []
    requires var b := BaseStack(cwd, base);
             var names := Names(Split(path, '/')[k..]);
             names == [] || names[0] != b[if k <= |b| then |b| - k else 0]
    ensures !Within(Resolve(cwd, base, path), ResolveDir(cwd, base))
  {
    var b := BaseStack(cwd, base);
    var m := if k <= |b| then |b| - k else 0;
    var names := Names(Split(path, '/')[k..]);
    ClimbTexts(cwd, base, path, k);
    StackNotWithin(b, m, names);
  }

  /** The texts a climbing path and its base resolve to, as stacks. */
  lemma ClimbTexts(cwd: string, base: string, path: string, k: nat)
    requires !StartsWith(path, "/")
    requires k <= |Split(path, '/')|
    requires forall i :: 0 <= i < k ==> Split(path, '/')[i] == ".."
    requires forall i :: k <= i < |Split(path, '/')| ==> Split(path, '/')[i] != ".."
    ensures var b := BaseStack(cwd, base);
            var names := Names(Split(path, '/')[k..]);
            Resolve(cwd, base, path) == "/" + Join(b[..if k <= |b| then |b| - k else 0] + names, "/")
            && ResolveDir(cwd, base) == "/" + Join(b, "/")
            && forall i :: 0 <= i < |names| ==> IsName(names[i]) && '/' !in names[i]
  {
    ClimbResolve(cwd, base, path, k);
    ResolveSegments(cwd, base, path);
    TailNames(Split(path, '/'), k);
  }

  /** In a configuration directory: the segment-aware `safeConfigPath` refuses such a climbing path. */
  lemma ClimbRefusedInConfigDir(cwd: string, baseDir: string, path: string, k: nat)
    requires !StartsWith(path, "/")
    requires 1 <= k <= |Split(path, '/')|
    requires forall i :: 0 <= i < k ==> Split(path, '/')[i] == ".."
    requires forall i :: k <= i < |Split(path, '/')| ==> Split(path, '/')[i] != ".."
    requires BaseStack(cwd, baseDir) != []
    requires var b := BaseStack(cwd, baseDir);
             var names := Names(Split(path, '/')[k..]);
             names == [] || names[0] != b[if k <= |b| then |b| - k else 0]
    ensures SafeConfigPathWithin(cwd, baseDir, path) == Failure(OutsideConfigDir + path)
  {
    ClimbRefused(cwd, baseDir, path, k);
  }

  /** In the workspace: a relative path that climbs above a workspace other than the root, and does not step straight back into the directory it left, is refused by the segment-aware `safePath`. */
  lemma ClimbRefusedInWorkspace(workDir: string, path: string, k: nat)
    requires !StartsWith(path, "/")
    requires 1 <= k <= |Split(path, '/')|
    requires forall i :: 0 <= i < k ==> Split(path, '/')[i] == ".."
    requires forall i :: k <= i < |Split(path, '/')| ==> Split(path, '/')[i] != ".."
    requires BaseStack(workDir, workDir) != []
    requires var b := BaseStack(workDir, workDir);
             var names := Names(Split(path, '/')[k..]);
             names == [] || names[0] != b[if k <= |b| then |b| - k else 0]
    ensures SafePathWithin(workDir, path) == Failure(OutsideWorkspace + path)
  {
    ClimbRefused(workDir, workDir, path, k);
  }

  /** The names after the leading `..` of `/`-free segments are names free of `/`. */
  lemma TailNames(p: seq<string>, k: nat)
    requires k <= |p|
    requires forall i :: k <= i < |p| ==> p[i] != ".."
    requires forall i :: 0 <= i < |p| ==> '/' !in p[i]
    ensures forall i :: 0 <= i < |Names(p[k..])| ==> IsName(Names(p[k..])[i]) && '/' !in Names(p[k..])[i]
  {
    NamesNotBlank(p[k..]);
  }

  /** Cutting a stack and pushing names other than the one cut first leaves the stack's text. */
  lemma StackNotWithin(b: seq<string>, m: nat, names: seq<string>)
    requires forall i :: 0 <= i < |b| ==> IsName(b[i]) && '/' !in b[i]
    requires forall i :: 0 <= i < |names| ==> IsName(names[i]) && '/' !in names[i]
    requires m < |b|
    requires names == [] || names[0] != b[m]
    ensures !Within("/" + Join(b[..m] + names, "/"), "/" + Join(b, "/"))
  {
    var r := b[..m] + names;
    if Within("/" + Join(r, "/"), "/" + Join(b, "/")) {
      WithinStack(r, b);
      assert false;
    }
  }

  /** Four segments joined with `/`. */
  lemma JoinFour(a: string, b: string, c: string, d: string)
    ensures Join([a, b, c, d], "/") == a + "/" + (b + "/" + (c + "/" + d))
  {
    assert [a, b, c, d][1..] == [b, c, d];
    assert [b, c, d][1..] == [c, d];
    JoinTwo(c, d);
    assert Join([b, c, d], "/") == b + "/" + (c + "/" + d);
  }

  /** Five segments joined with `/`. */
  lemma JoinFive(a: string, b: string, c: string, d: string, e: string)
    ensures Join([a, b, c, d, e], "/") == a + "/" + (b + "/" + (c + "/" + (d + "/" + e)))
  {
    assert [a, b, c, d, e][1..] == [b, c, d, e];
    JoinFour(b, c, d, e);
  }

  /** The texts of the two climbing paths, segment by segment. */
  lemma ClimbingPathTexts()
    ensures ".." + "/" + (".." + "/" + ("etc" + "/" + "passwd")) == "../../etc/passwd"
    ensures ".." + "/" + (".." + "/" + (".." + "/" + ("etc" + "/" + "passwd"))) == "../../../etc/passwd"
  {
  }

  /** The segments of `../../../etc/passwd`. */
  lemma SplitEtcPasswdThree()
    ensures Split("../../../etc/passwd", '/') == Ups(3) + ["etc", "passwd"]
  {
    var segs := ["..", "..", "..", "etc", "passwd"];
    JoinFive("..", "..", "..", "etc", "passwd");
    ClimbingPathTexts();
    SplitJoin(segs, '/');
    assert segs == Ups(3) + ["etc", "passwd"];
  }

  /** The segments of `../../etc/passwd`. */
  lemma SplitEtcPasswdTwo()
    ensures Split("../../etc/passwd", '/') == Ups(2) + ["etc", "passwd"]
  {
    var segs := ["..", "..", "etc", "passwd"];
    JoinFour("..", "..", "etc", "passwd");
    ClimbingPathTexts();
    SplitJoin(segs, '/');
    assert segs == Ups(2) + ["etc", "passwd"];
  }

  /** The segments of `/p/work`. */
  lemma SplitWorkDir()
    ensures Split("/p/work", '/') == ["", "p", "work"]
  {
    var segs := ["", "p", "work"];
    assert Join(segs, "/") == "/p/work" by {
      assert Join(["work"], "/") == "work";
      assert ["p", "work"][1..] == ["work"];
      assert Join(["p", "work"], "/") == "p/work";
      assert segs[1..] == ["p", "work"];
    }
    SplitJoin(segs, '/');
  }

  /** The stack of `/p/work`. */
  lemma WorkStack()
    ensures BaseStack("/p/work", "/p/work") == ["p", "work"]
  {
    assert Anchor("/p/work", "/p/work") == "/p/work" by {
      assert StartsWith("/p/work", "/");
    }
    SplitWorkDir();
    CollapseWorkDir();
  }

  /** `/p/work` normalises to its two names. */
  lemma CollapseWorkDir()
    ensures Collapse(["", "p", "work"]) == ["p", "work"]
  {
    assert Collapse([""]) == [];
    assert ["", "p"][..1] == [""];
    assert Collapse(["", "p"]) == ["p"];
    assert ["", "p", "work"][..2] == ["", "p"];
  }

  /** The segments of `/home/user/.config`. */
  lemma SplitConfigDir()
    ensures Split("/home/user/.config", '/') == ["", "home", "user", ".config"]
  {
    var segs := ["", "home", "user", ".config"];
    assert Join(segs, "/") == "/home/user/.config" by {
      JoinConfig();
      assert segs[1..] == ["home", "user", ".config"];
    }
    SplitJoin(segs, '/');
  }

  /** The stack of `/home/user/.config` joins back to it. */
  lemma JoinConfig()
    ensures Join(["home", "user", ".config"], "/") == "home/user/.config"
  {
    assert Join([".config"], "/") == ".config";
    assert ["user", ".config"][1..] == [".config"];
    assert Join(["user", ".config"], "/") == "user/.config";
    assert ["home", "user", ".config"][1..] == ["user", ".config"];
  }

  /** `/home/user/.config` normalises to its three names. */
  lemma CollapseConfig()
    ensures Collapse(["", "home", "user", ".config"]) == ["home", "user", ".config"]
  {
    assert Collapse([""]) == [];
    assert ["", "home"][..1] == [""];
    assert Collapse(["", "home"]) == ["home"];
    assert ["", "home", "user"][..2] == ["", "home"];
    assert Collapse(["", "home", "user"]) == ["home", "user"];
    assert ["", "home", "user", ".config"][..3] == ["", "home", "user"];
  }

  /** The stack of `/home/user/.config`. */
  lemma ConfigStack(cwd: string)
    ensures BaseStack(cwd, "/home/user/.config") == ["home", "user", ".config"]
  {
    assert Anchor(cwd, "/home/user/.config") == "/home/user/.config" by {
      assert StartsWith("/home/user/.config", "/");
    }
    SplitConfigDir();
    CollapseConfig();
  }

  /** Concatenation regrouped to the left. */
  lemma SlashRegroup(a: string, b: string, c: string, d: string)
    ensures a + (b + c + d) == a + b + c + d
  {
  }

  /** Two names joined. */
  lemma JoinTwo(x: string, y: string)
    ensures Join([x, y], "/") == x + "/" + y
  {
    assert [x, y][1..] == [y];
  }

  /** `k` segments `..` and then two names: the stack loses `k` names and gains the two. */
  lemma ClimbNames(st: seq<string>, k: nat, x: string, y: string)
    requires IsName(x) && IsName(y)
    ensures var b := Collapse(st);
            Collapse(st + (Ups(k) + [x, y])) == b[..if k <= |b| then |b| - k else 0] + [x, y]
  {
    assert st + (Ups(k) + [x, y]) == (st + Ups(k)) + [x, y];
    CollapseAppend(st + Ups(k), [x, y]);
    CollapseUps(st, k);
    NamesOfTwo(x, y);
  }

  /** Two names are kept by normalisation. */
  lemma NamesOfTwo(x: string, y: string)
    requires IsName(x) && IsName(y)
    ensures Names([x, y]) == [x, y]
  {
    assert [x, y][..1] == [x];
    assert [x][..0] == [];
  }

  /** A stack of two names as text. */
  lemma StackTextTwo(x: string, y: string)
    ensures "/" + Join([x, y], "/") == "/" + x + "/" + y
  {
    JoinTwo(x, y);
    SlashRegroup("/", x, "/", y);
  }

  /** A stack of three names as text. */
  lemma StackTextThree(u: string, x: string, y: string)
    ensures "/" + Join([u, x, y], "/") == "/" + u + "/" + x + "/" + y
  {
    assert [u, x, y][1..] == [x, y];
    JoinTwo(x, y);
    SlashRegroup("/" + u + "/", x, "/", y);
    SlashRegroup("/", u, "/", x + "/" + y);
  }

  /** A path that climbs three levels and names `x/y`, from a two-level base, ends at `/x/y`. */
  lemma ClimbThree(cwd: string, base: string, path: string, x: string, y: string)
    requires !StartsWith(path, "/")
    requires Split(path, '/') == Ups(3) + [x, y]
    requires IsName(x) && IsName(y)
    requires |BaseStack(cwd, base)| == 2
    ensures Resolve(cwd, base, path) == "/" + x + "/" + y
  {
    ClimbText(cwd, base, path, 3, x, y);
    var b := BaseStack(cwd, base);
    assert b[..0] + [x, y] == [x, y];
    StackTextTwo(x, y);
  }

  /** A path of `k` segments `..` and then two names resolves to the base's stack less `k` names, followed by the two. */
  lemma ClimbText(cwd: string, base: string, path: string, k: nat, x: string, y: string)
    requires !StartsWith(path, "/")
    requires Split(path, '/') == Ups(k) + [x, y]
    requires IsName(x) && IsName(y)
    ensures var b := BaseStack(cwd, base);
            Resolve(cwd, base, path) == "/" + Join(b[..if k <= |b| then |b| - k else 0] + [x, y], "/")
  {
    ResolveSegments(cwd, base, path);
    ClimbNames(Split(Anchor(cwd, base), '/'), k, x, y);
  }

  /** The texts of `/etc/passwd` and `/home/etc/passwd`, segment by segment. */
  lemma EtcPasswdText()
    ensures "/" + "etc" + "/" + "passwd" == "/etc/passwd"
    ensures "/" + "home" + "/" + "etc" + "/" + "passwd" == "/home/etc/passwd"
  {
  }

  /** `resolve("/p/work", "../../../etc/passwd")` climbs past the root and stops there. */
  lemma EtcPasswdFromWork()
    ensures Resolve("/p/work", "/p/work", "../../../etc/passwd") == "/etc/passwd"
  {
    var path: string := "../../../etc/passwd";
    assert path[0] == '.';
    SplitEtcPasswdThree();
    WorkStack();
    ClimbThree("/p/work", "/p/work", path, "etc", "passwd");
    EtcPasswdText();
  }

  /** `/etc/passwd` does not start with `/p/work`. */
  lemma EtcNotUnderWork()
    ensures !StartsWith("/etc/passwd", "/p/work")
  {
    var r: string := "/etc/passwd";
    assert r[1] == 'e' && "/p/work"[1] == 'p';
  }

  /** `/home/etc/passwd` does not start with `/home/user/.config`. */
  lemma EtcNotUnderConfig()
    ensures !StartsWith("/home/etc/passwd", "/home/user/.config")
  {
    var r: string := "/home/etc/passwd";
    assert r[6] == 'e' && "/home/user/.config"[6] == 'u';
  }

  /** `safePath("../../../etc/passwd")` in the workspace `/p/work` is refused by both tests. */
  lemma EtcPasswdOutsideWorkspace()
    ensures SafePath("/p/work", "../../../etc/passwd") == Failure(OutsideWorkspace + "../../../etc/passwd")
    ensures SafePathWithin("/p/work", "../../../etc/passwd") == Failure(OutsideWorkspace + "../../../etc/passwd")
  {
    EtcPasswdFromWork();
    ResolveWork();
    EtcNotUnderWork();
    WithinIsStricter("/p/work", "/p/work", "../../../etc/passwd", OutsideWorkspace);
  }

  /** A path that climbs two levels and names `x/y`, from a three-level base `u/v/w`, ends at `/u/x/y`. */
  lemma ClimbTwo(cwd: string, base: string, path: string, u: string, x: string, y: string)
    requires !StartsWith(path, "/")
    requires Split(path, '/') == Ups(2) + [x, y]
    requires IsName(x) && IsName(y)
    requires |BaseStack(cwd, base)| == 3 && BaseStack(cwd, base)[0] == u
    ensures Resolve(cwd, base, path) == "/" + u + "/" + x + "/" + y
  {
    ClimbText(cwd, base, path, 2, x, y);
    var b := BaseStack(cwd, base);
    assert b[..1] + [x, y] == [u, x, y];
    StackTextThree(u, x, y);
  }

  /** `resolve("/home/user/.config", "../../etc/passwd")` leaves the configuration directory for `/home/etc/passwd`. */
  lemma EtcPasswdFromConfig(cwd: string)
    ensures Resolve(cwd, "/home/user/.config", "../../etc/passwd") == "/home/etc/passwd"
  {
    var path: string := "../../etc/passwd";
    assert path[0] == '.';
    SplitEtcPasswdTwo();
    ConfigStack(cwd);
    ClimbTwo(cwd, "/home/user/.config", path, "home", "etc", "passwd");
    EtcPasswdText();
  }

  /** `resolve("/home/user/.config")` is itself. */
  lemma ConfigDirResolved(cwd: string)
    ensures ResolveDir(cwd, "/home/user/.config") == "/home/user/.config"
  {
    ResolveSegments(cwd, "/home/user/.config", "");
    ConfigStack(cwd);
    JoinConfig();
  }

  /** `safeConfigPath("/home/user/.config", "../../etc/passwd")` is refused by both tests. */
  lemma EtcPasswdOutsideConfigDir(cwd: string)
    ensures SafeConfigPath(cwd, "/home/user/.config", "../../etc/passwd")
         == Failure(OutsideConfigDir + "../../etc/passwd")
    ensures SafeConfigPathWithin(cwd, "/home/user/.config", "../../etc/passwd")
         == Failure(OutsideConfigDir + "../../etc/passwd")
  {
    EtcPasswdFromConfig(cwd);
    ConfigDirResolved(cwd);
    EtcNotUnderConfig();
    WithinIsStricter(cwd, "/home/user/.config", "../../etc/passwd", OutsideConfigDir);
  }

  // -------------------------------------------------------- validated paths

  /** The depth walk of a list agrees with that of any longer list on the shared prefix. */
  lemma {:induction false} DepthOfPrefix(p: seq<string>, n: nat, k: nat)
    requires k <= n <= |p|
    ensures Validation.DepthAfter(p[..n], k) == Validation.DepthAfter(p, k)
  {
    if k > 0 {
      DepthOfPrefix(p, n, k - 1);
      assert p[..n][k - 1] == p[k - 1];
    }
  }

  /** Segments that never climb above their start normalise on their own: appended to any stack they only add their own normal form, and its length is their final depth. */
  lemma {:induction false} CollapseBelow(a: seq<string>, p: seq<string>)
    requires Validation.NeverAbove(p)
    ensures Collapse(a + p) == Collapse(a) + Collapse(p)
    ensures |Collapse(p)| == Validation.DepthAfter(p, |p|)
  {
    if p == [] {
      assert a + p == a;
    } else {
      var p' := p[..|p| - 1];
      forall k | 0 <= k <= |p'|
        ensures Validation.DepthAfter(p', k) >= 0
      {
        DepthOfPrefix(p, |p| - 1, k);
      }
      DepthOfPrefix(p, |p| - 1, |p| - 1);
      CollapseBelow(a, p');
      assert (a + p)[..|a + p| - 1] == a + p';
      assert (a + p)[|a + p| - 1] == p[|p| - 1];
      assert Validation.DepthAfter(p, |p|) >= 0;
    }
  }

  /** A relative path without a backslash that `validateFilePath` accepts stays within the base: its names extend the base's stack by exactly its final depth, and every containment test accepts it. */
  lemma AcceptedPathWithin(cwd: string, base: string, path: string)
    requires Validation.FilePathError(path).None?
    requires !StartsWith(path, "/") && '\\' !in path
    ensures Collapse(Split(Joined(cwd, base, path), '/')) == BaseStack(cwd, base) + Collapse(Split(path, '/'))
    ensures |Collapse(Split(path, '/'))|
         == Validation.DepthAfter(Validation.PathSegments(path), |Validation.PathSegments(path)|)
    ensures Within(Resolve(cwd, base, path), ResolveDir(cwd, base))
    ensures SafeConfigPathWithin(cwd, base, path).Success? && SafeConfigPath(cwd, base, path).Success?
  {
    var parts := Split(path, '/');
    Validation.SegmentsWithoutBackslash(path);
    var s := Split(Anchor(cwd, base), '/');
    ResolveSegments(cwd, base, path);
    CollapseBelow(s, parts);
    JoinExtends(Collapse(s), Collapse(parts));
    var resolved := Resolve(cwd, base, path);
    var root := ResolveDir(cwd, base);
    if Collapse(parts) != [] && Collapse(s) != [] {
      assert resolved == root + "/" + Join(Collapse(parts), "/");
      assert StartsWith(resolved, root + "/");
    }
    assert Within(resolved, root);
    WithinIsStricter(cwd, base, path, OutsideConfigDir);
  }

  /** In the workspace: a relative path without a backslash that `validateFilePath` accepts passes both forms of `safePath`, which agree on it. */
  lemma AcceptedPathInWorkspace(workDir: string, path: string)
    requires Validation.FilePathError(path).None?
    requires !StartsWith(path, "/") && '\\' !in path
    ensures SafePathWithin(workDir, path) == SafePath(workDir, path) == Success(Resolve(workDir, workDir, path))
  {
    AcceptedPathWithin(workDir, workDir, path);
    WithinIsStricter(workDir, workDir, path, OutsideWorkspace);
  }

  // ------------------------------------------------------------------ display

  /** `relativeToWorkDir`: drop the first occurrence of `workDir`, then one leading `/`; an empty result reads `.`. */
  function RelativeToWorkDir(workDir: string, absolutePath: string): (r: string)
    ensures r != ""
  {
    var cut := ReplaceFirst(absolutePath, workDir, "");
    var rel := if StartsWith(cut, "/") then cut[1..] else cut;
    if rel == "" then "." else rel
  }

  /** The workspace itself reads `.`. */
  lemma RelativeOfRoot(workDir: string)
    ensures RelativeToWorkDir(workDir, workDir) == "."
  {
    assert IsAt(workDir, workDir, 0);
  }

  /** A path written below the workspace reads as the part after it. */
  lemma RelativeOfChild(workDir: string, q: string)
    requires q != "" && !StartsWith(q, "/")
    ensures RelativeToWorkDir(workDir, workDir + "/" + q) == q
  {
    var s := workDir + "/" + q;
    assert IsAt(s, workDir, 0);
    assert ReplaceFirst(s, workDir, "") == "/" + q;
    assert ("/" + q)[1..] == q;
  }

  /** Resolving a descending path and reading it back relative to the workspace gives its names joined by `/`. */
  lemma ResolveThenRelative(workDir: string, path: string)
    requires !StartsWith(path, "/")
    requires forall i :: 0 <= i < |Split(path, '/')| ==> Split(path, '/')[i] != ".."
    requires ResolveDir(workDir, workDir) == workDir && workDir != "/"
    requires Names(Split(path, '/')) != []
    ensures SafePathWithin(workDir, path).Success?
    ensures RelativeToWorkDir(workDir, SafePathWithin(workDir, path).value)
         == Join(Names(Split(path, '/')), "/")
  {
    var names := Names(Split(path, '/'));
    DescendingPathAccepted(workDir, path);
    NamesNotBlank(Split(path, '/'));
    JoinNamesNotBlank(names);
    RelativeOfChild(workDir, Join(names, "/"));
  }

  /** Every name segment is a name, and carries no `/` when no segment does. */
  lemma {:induction false} NamesNotBlank(segs: seq<string>)
    requires forall i :: 0 <= i < |segs| ==> segs[i] != ".." && '/' !in segs[i]
    ensures forall i :: 0 <= i < |Names(segs)| ==> IsName(Names(segs)[i]) && '/' !in Names(segs)[i]
  {
    if segs != [] {
      NamesNotBlank(segs[..|segs| - 1]);
    }
  }

  /** Joined names neither are empty nor begin with `/`, when the names carry no `/`. */
  lemma JoinNamesNotBlank(names: seq<string>)
    requires names != []
    requires forall i :: 0 <= i < |names| ==> IsName(names[i]) && '/' !in names[i]
    ensures Join(names, "/") != "" && !StartsWith(Join(names, "/"), "/")
  {
    JoinStartsWithFirst(names, "/");
    FirstCharOf(names[0], Join(names, "/"));
  }

  /** A string that starts with a non-empty part free of `/` is non-empty and does not start with `/`. */
  lemma FirstCharOf(part: string, s: string)
    requires part != "" && '/' !in part && StartsWith(s, part)
    ensures s != "" && !StartsWith(s, "/")
  {
    assert s[0] == part[0];
  }
}
