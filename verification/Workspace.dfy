/** Which services a change rebuilds (scripts/detect-changed-services.py): a worklist over the
    workspace's dependency graph, and the reading of changed paths. */
module Workspace {
  import opened Text

  const GLOBAL_ROOT_FILES: set<string> := {"pyproject.toml", "uv.lock", ".dockerignore"}

  datatype Workspace = Workspace(
    dirToName: map<string, string>,
    deps: map<string, set<string>>,
    buildable: set<string>)
  {
    function Deps(name: string): set<string> {
      if name in deps then deps[name] else {}
    }

    /** Loading derives the buildable apps from the member directories. */
    predicate Loaded() {
      forall app :: app in buildable ==> "apps/" + app in dirToName
    }
  }

  ghost predicate IsPath(ws: Workspace, p: seq<string>) {
    |p| >= 2 && forall i :: 0 <= i < |p| - 1 ==> p[i + 1] in ws.Deps(p[i])
  }

  /** One or more dependency edges lead from `a` to `b`. */
  ghost predicate Reaches(ws: Workspace, a: string, b: string) {
    exists p :: IsPath(ws, p) && p[0] == a && p[|p| - 1] == b
  }

  lemma EdgeReaches(ws: Workspace, a: string, b: string)
    requires b in ws.Deps(a)
    ensures Reaches(ws, a, b)
  {
    assert IsPath(ws, [a, b]);
  }

  lemma EdgeExtends(ws: Workspace, a: string, b: string, c: string)
    requires Reaches(ws, a, b) && c in ws.Deps(b)
    ensures Reaches(ws, a, c)
  {
    var p :| IsPath(ws, p) && p[0] == a && p[|p| - 1] == b;
    assert IsPath(ws, p + [c]);
    assert (p + [c])[|p + [c]| - 1] == c;
  }

  ghost predicate Closed(ws: Workspace, name: string, s: set<string>) {
    ws.Deps(name) <= s && forall n :: n in s ==> ws.Deps(n) <= s
  }

  lemma {:induction false} ClosedHoldsReachable(ws: Workspace, name: string, s: set<string>, p: seq<string>, i: nat)
    requires Closed(ws, name, s) && IsPath(ws, p) && p[0] == name && 0 < i < |p|
    ensures p[i] in s
  {
    assert p[i - 1 + 1] in ws.Deps(p[i - 1]);
    if i > 1 {
      ClosedHoldsReachable(ws, name, s, p, i - 1);
    } else {
    }
  }

  ghost function Universe(ws: Workspace): set<string> {
    set n, d | n in ws.deps && d in ws.deps[n] :: d
  }

  /** `stack.extend(deps)`, in whatever order the set is walked. */
  method Extend(stack: seq<string>, deps: set<string>) returns (r: seq<string>)
    ensures forall d :: d in r <==> d in stack || d in deps
  {
    r := stack;
    var left := deps;
    while left != {}
      invariant left <= deps && forall d :: d in r <==> d in stack || (d in deps && d !in left)
      decreases left
    {
      var d :| d in left;
      r, left := r + [d], left - {d};
    }
  }

  /** The members reachable by one or more edges, on any graph, cycles included. */
  method TransitiveDeps(ws: Workspace, name: string) returns (seen: set<string>)
    ensures forall d :: d in seen <==> Reaches(ws, name, d)
  {
    seen := {};
    var stack := Extend([], ws.Deps(name));
    forall d | d in stack ensures Reaches(ws, name, d) { EdgeReaches(ws, name, d); }
    while stack != []
      invariant forall d :: d in stack ==> d in Universe(ws) && Reaches(ws, name, d)
      invariant forall d :: d in seen ==> Reaches(ws, name, d)
      invariant forall d :: d in ws.Deps(name) ==> d in seen || d in stack
      invariant forall n, d :: n in seen && d in ws.Deps(n) ==> d in seen || d in stack
      decreases Universe(ws) - seen, |stack|
    {
      var dep := stack[|stack| - 1];
      ghost var before := stack;
      stack := stack[..|stack| - 1];
      assert before == stack + [dep];
      if dep !in seen {
        seen := seen + {dep};
        stack := Extend(stack, ws.Deps(dep));
        forall d | d in ws.Deps(dep) ensures Reaches(ws, name, d) { EdgeExtends(ws, name, dep, d); }
      }
    }
    assert Closed(ws, name, seen);
    forall d | Reaches(ws, name, d) ensures d in seen {
      var p :| IsPath(ws, p) && p[0] == name && p[|p| - 1] == d;
      ClosedHoldsReachable(ws, name, seen, p, |p| - 1);
    }
  }

  /** The buildable apps whose package reaches the member. */
  ghost function Dependents(ws: Workspace, member: string): set<string> {
    set app | app in ws.buildable && "apps/" + app in ws.dirToName && Reaches(ws, ws.dirToName["apps/" + app], member)
  }

  method FindDependents(ws: Workspace, member: string) returns (result: set<string>)
    requires ws.Loaded()
    ensures result == Dependents(ws, member)
  {
    result := {};
    var left := ws.buildable;
    while left != {}
      invariant left <= ws.buildable
      invariant forall app :: app in result <==> app in Dependents(ws, member) && app !in left
      decreases left
    {
      var app :| app in left;
      var closure := TransitiveDeps(ws, ws.dirToName["apps/" + app]);
      if member in closure { result := result + {app}; }
      left := left - {app};
    }
  }

  // ---------------------------------------------------------------- changed paths

  /** What a changed path touches. */
  datatype Touched = Nothing | EveryImage | App(name: string) | Member(dir: string)

  function Touches(path: string): Touched {
    if path in GLOBAL_ROOT_FILES then EveryImage else TouchesPart(Split(path, '/'))
  }

  function TouchesPart(parts: seq<string>): Touched
    requires |parts| > 0
  {
    if parts[0] == "apps" && |parts| >= 2 then App(parts[1])
    else if parts[0] == "packages" && |parts| >= 2 then Member("packages/" + parts[1])
    else if parts[0] == "plugins" && |parts| >= 3 then Member("plugins/" + parts[1] + "/" + parts[2])
    else Nothing
  }

  ghost function Rebuilt(ws: Workspace, touched: Touched): set<string> {
    match touched
    case Nothing => {}
    case EveryImage => ws.buildable
    case App(name) => if name in ws.buildable then {name} else {}
    case Member(dir) => if dir in ws.dirToName then Dependents(ws, ws.dirToName[dir]) else {}
  }

  /** What one changed path rebuilds. */
  ghost function Services(ws: Workspace, raw: string): set<string> {
    Rebuilt(ws, Touches(Trim(raw)))
  }

  ghost function ServicesIn(ws: Workspace): string -> set<string> {
    raw => Services(ws, raw)
  }

  method Rebuild(ws: Workspace, touched: Touched) returns (build: set<string>)
    requires ws.Loaded()
    ensures build == Rebuilt(ws, touched)
  {
    match touched
    case Nothing => build := {};
    case EveryImage => build := ws.buildable;
    case App(name) => build := if name in ws.buildable then {name} else {};
    case Member(dir) =>
      build := {};
      if dir in ws.dirToName { build := FindDependents(ws, ws.dirToName[dir]); }
  }

  /** `whole` is the union of the parts' images. */
  ghost predicate IsUnion<A(!new), B(!new)>(f: A -> set<B>, parts: seq<A>, whole: set<B>) {
    && (forall i :: 0 <= i < |parts| ==> f(parts[i]) <= whole)
    && (forall x :: x in whole ==> exists i :: 0 <= i < |parts| && x in f(parts[i]))
  }

  lemma OnePartMore<A(!new), B(!new)>(f: A -> set<B>, parts: seq<A>, i: nat, before: set<B>)
    requires i < |parts| && IsUnion(f, parts[..i], before)
    ensures IsUnion(f, parts[..i + 1], before + f(parts[i]))
  {
    var shorter, longer := parts[..i], parts[..i + 1];
    forall x | x in before + f(parts[i]) ensures exists j :: 0 <= j < |longer| && x in f(longer[j]) {
      if x in before {
        var j :| 0 <= j < |shorter| && x in f(shorter[j]);
        assert longer[j] == shorter[j];
      } else {
        assert longer[i] == parts[i];
      }
    }
    forall j | 0 <= j < |longer| ensures f(longer[j]) <= before + f(parts[i]) {
      if j < i { assert longer[j] == shorter[j]; }
    }
  }

  ghost predicate Covers<A(!new), C(!new)>(g: A -> C, a: seq<A>, b: seq<A>) {
    forall i :: 0 <= i < |a| ==> exists j :: 0 <= j < |b| && g(b[j]) == g(a[i])
  }

  /** Parts that look alike to `g`, and so to `f`, add up to the same whole, in any order and
      however often repeated. */
  lemma UnionWithin<A(!new), B(!new), C(!new)>(f: A -> set<B>, g: A -> C, a: seq<A>, b: seq<A>, x: set<B>, y: set<B>)
    requires IsUnion(f, a, x) && IsUnion(f, b, y) && Covers(g, a, b)
    requires forall p, q :: g(p) == g(q) ==> f(p) == f(q)
    ensures x <= y
  {
    forall e | e in x ensures e in y {
      var i :| 0 <= i < |a| && e in f(a[i]);
      var j :| 0 <= j < |b| && g(b[j]) == g(a[i]);
      assert f(b[j]) == f(a[i]);
    }
  }

  // ---------------------------------------------------------------- what a path rebuilds

  /** The path is the directory's, or of something inside it. */
  predicate Under(path: string, dir: string) {
    path == dir || dir + ['/'] <= path
  }

  /** A member directory: a package by its name, a plugin by its kind and name. */
  ghost predicate IsMemberDir(dir: string) {
    || (exists name :: '/' !in name && dir == "packages/" + name)
    || (exists kind, name :: '/' !in kind && '/' !in name && dir == "plugins/" + kind + "/" + name)
  }

  /** The three root files that go into every image. */
  predicate InEveryImage(path: string) {
    path == "pyproject.toml" || path == "uv.lock" || path == ".dockerignore"
  }

  predicate OwnFile(path: string, app: string) {
    '/' !in app && Under(path, "apps/" + app)
  }

  /** A file of a package or plugin that the app's own package reaches. */
  ghost predicate ReachedFile(ws: Workspace, path: string, app: string) {
    exists dir :: IsMemberDir(dir) && Under(path, dir) && dir in ws.dirToName
                  && "apps/" + app in ws.dirToName && Reaches(ws, ws.dirToName["apps/" + app], ws.dirToName[dir])
  }

  ghost predicate RebuiltFor(ws: Workspace, path: string, app: string) {
    app in ws.buildable && (InEveryImage(path) || OwnFile(path, app) || ReachedFile(ws, path, app))
  }

  lemma {:induction false} JoinStarts(parts: seq<string>)
    requires |parts| > 1
    ensures Join(parts, '/') == parts[0] + ['/'] + Join(parts[1..], '/')
  {
  }

  /** Under a directory of one slash-free name, as the parts of the path tell. */
  lemma UnderTop(path: string, top: string, rest: string)
    requires '/' !in top && path == top + ['/'] + rest
    ensures Split(path, '/') == [top] + Split(rest, '/')
  {
    SplitAfter(top, '/', rest);
  }

  lemma SlashIsAPart(path: string, top: string)
    requires '/' !in top && |Split(path, '/')| > 1 && Split(path, '/')[0] == top
    ensures path == top + ['/'] + Join(Split(path, '/')[1..], '/')
  {
    SplitThenJoin(path, '/');
    JoinStarts(Split(path, '/'));
  }

  /** The first name of a path, up to its end or the next slash. */
  lemma UnderOneName(path: string, name: string)
    requires '/' !in name
    ensures Under(path, name) <==> Split(path, '/')[0] == name
  {
    if Under(path, name) {
      if path == name {
        SplitAfter(name, '/', "");
      } else {
        var rest := path[|name| + 1..];
        assert path == name + ['/'] + rest;
        UnderTop(path, name, rest);
      }
    }
    if Split(path, '/')[0] == name {
      if |Split(path, '/')| > 1 {
        SlashIsAPart(path, name);
      } else {
        SplitThenJoin(path, '/');
      }
    }
  }

  /** A directory one level down. */
  lemma UnderInside(path: string, top: string, dir: string)
    requires '/' !in top
    ensures Under(path, top + ['/'] + dir) <==>
              |Split(path, '/')| > 1 && Split(path, '/')[0] == top && Under(Join(Split(path, '/')[1..], '/'), dir)
  {
    if Under(path, top + ['/'] + dir) {
      var rest := path[|top| + 1..];
      assert path == top + ['/'] + rest;
      UnderTop(path, top, rest);
      SplitThenJoin(rest, '/');
      assert Under(rest, dir);
    }
    if |Split(path, '/')| > 1 && Split(path, '/')[0] == top && Under(Join(Split(path, '/')[1..], '/'), dir) {
      SlashIsAPart(path, top);
      var rest := Join(Split(path, '/')[1..], '/');
      if rest != dir { assert top + ['/'] + dir + ['/'] == top + ['/'] + (dir + ['/']); }
    }
  }

  lemma RestOfParts(path: string)
    requires |Split(path, '/')| > 1
    ensures Split(Join(Split(path, '/')[1..], '/'), '/') == Split(path, '/')[1..]
  {
    var parts := Split(path, '/');
    PiecesAreFree(path, '/');
    forall i | 0 <= i < |parts[1..]| ensures '/' !in parts[1..][i] { assert parts[1..][i] in parts; }
    JoinThenSplit(parts[1..], '/');
  }

  /** Under a directory two names deep. */
  lemma UnderTwoNames(path: string, top: string, name: string)
    requires '/' !in top && '/' !in name
    ensures Under(path, top + ['/'] + name) <==>
              |Split(path, '/')| > 1 && Split(path, '/')[0] == top && Split(path, '/')[1] == name
  {
    UnderInside(path, top, name);
    if |Split(path, '/')| > 1 {
      RestOfParts(path);
      UnderOneName(Join(Split(path, '/')[1..], '/'), name);
    }
  }

  lemma UnderThreeNames(path: string, top: string, kind: string, name: string)
    requires '/' !in top && '/' !in kind && '/' !in name
    ensures Under(path, top + ['/'] + (kind + ['/'] + name)) <==>
              |Split(path, '/')| > 2 && Split(path, '/')[0] == top && Split(path, '/')[1] == kind && Split(path, '/')[2] == name
  {
    UnderInside(path, top, kind + ['/'] + name);
    if |Split(path, '/')| > 1 {
      RestOfParts(path);
      UnderTwoNames(Join(Split(path, '/')[1..], '/'), kind, name);
    }
  }

  lemma AppTouched(path: string, app: string)
    requires '/' !in app
    ensures Under(path, "apps/" + app) <==> TouchesPart(Split(path, '/')) == App(app)
  {
    UnderTwoNames(path, "apps", app);
    assert "apps/" + app == "apps" + ['/'] + app;
  }

  lemma PackageTouched(path: string, name: string)
    requires '/' !in name
    ensures Under(path, "packages/" + name) <==>
              |Split(path, '/')| > 1 && Split(path, '/')[0] == "packages" && Split(path, '/')[1] == name
  {
    UnderTwoNames(path, "packages", name);
    assert "packages/" + name == "packages" + ['/'] + name;
  }

  lemma PluginDirTouched(path: string, kind: string, name: string)
    requires '/' !in kind && '/' !in name
    ensures Under(path, "plugins/" + kind + "/" + name) <==>
              |Split(path, '/')| > 2 && Split(path, '/')[0] == "plugins" && Split(path, '/')[1] == kind && Split(path, '/')[2] == name
  {
    UnderThreeNames(path, "plugins", kind, name);
    assert "plugins/" + kind + "/" + name == "plugins" + ['/'] + (kind + ['/'] + name);
  }

  lemma MemberTouched(path: string, dir: string)
    ensures IsMemberDir(dir) && Under(path, dir) <==> TouchesPart(Split(path, '/')) == Member(dir)
  {
    var parts := Split(path, '/');
    PiecesAreFree(path, '/');
    if IsMemberDir(dir) && Under(path, dir) { DirTouched(path, dir); }
    if TouchesPart(parts) == Member(dir) {
      assert parts[0] in parts && parts[1] in parts;
      if parts[0] == "packages" {
        PackageTouched(path, parts[1]);
      } else {
        assert parts[2] in parts;
        PluginDirTouched(path, parts[1], parts[2]);
      }
    }
  }

  lemma DirTouched(path: string, dir: string)
    requires IsMemberDir(dir) && Under(path, dir)
    ensures TouchesPart(Split(path, '/')) == Member(dir)
  {
    if exists name :: '/' !in name && dir == "packages/" + name {
      var name :| '/' !in name && dir == "packages/" + name;
      PackageTouched(path, name);
    } else {
      var kind, name :| '/' !in kind && '/' !in name && dir == "plugins/" + kind + "/" + name;
      PluginDirTouched(path, kind, name);
    }
  }

  /** What a path outside the three root files rebuilds, by what it lies under. */
  lemma RebuiltByPlace(ws: Workspace, touched: Touched, path: string, app: string)
    requires touched != EveryImage
    requires OwnFile(path, app) <==> touched == App(app)
    requires forall dir :: IsMemberDir(dir) && Under(path, dir) <==> touched == Member(dir)
    ensures app in Rebuilt(ws, touched) <==> app in ws.buildable && (OwnFile(path, app) || ReachedFile(ws, path, app))
  {
  }

  lemma PlaceTouched(path: string, app: string)
    ensures OwnFile(path, app) <==> TouchesPart(Split(path, '/')) == App(app)
    ensures forall dir :: IsMemberDir(dir) && Under(path, dir) <==> TouchesPart(Split(path, '/')) == Member(dir)
  {
    forall dir ensures IsMemberDir(dir) && Under(path, dir) <==> TouchesPart(Split(path, '/')) == Member(dir) {
      MemberTouched(path, dir);
    }
    AppNamesAreFree(path);
    if '/' !in app { AppTouched(path, app); }
  }

  lemma EveryImageTouched(path: string)
    ensures InEveryImage(path) <==> Touches(path) == EveryImage
    ensures !InEveryImage(path) ==> Touches(path) == TouchesPart(Split(path, '/'))
  {
  }

  /** What a path rebuilds, said of its text alone. */
  lemma PathRebuilds(ws: Workspace, raw: string, path: string, app: string)
    requires path == Trim(raw)
    ensures app in Services(ws, raw) <==> RebuiltFor(ws, path, app)
  {
    EveryImageTouched(path);
    if !InEveryImage(path) {
      PlaceTouched(path, app);
      RebuiltByPlace(ws, Touches(path), path, app);
    }
  }

  lemma AppNamesAreFree(path: string)
    ensures TouchesPart(Split(path, '/')).App? ==> '/' !in TouchesPart(Split(path, '/')).name
  {
    PiecesAreFree(path, '/');
    var parts := Split(path, '/');
    if |parts| > 1 { assert parts[1] in parts; }
  }

  method ServicesForChanges(ws: Workspace, changed: seq<string>) returns (build: set<string>)
    requires ws.Loaded()
    ensures IsUnion(ServicesIn(ws), changed, build)
    ensures forall app :: app in build <==> SomeRebuilds(ws, changed, app)
    ensures (exists i :: 0 <= i < |changed| && Trim(changed[i]) in {"pyproject.toml", "uv.lock", ".dockerignore"}) ==>
              build == ws.buildable
  {
    ghost var services := ServicesIn(ws);
    build := {};
    for i := 0 to |changed|
      invariant IsUnion(services, changed[..i], build)
    {
      OnePartMore(services, changed, i, build);
      var path := Trim(changed[i]);
      if path == "" {
        BlankTouchesNothing(ws, changed[i]);
        assert build + services(changed[i]) == build;
      } else {
        var more := Rebuild(ws, Touches(path));
        build := build + more;
      }
    }
    assert changed[..|changed|] == changed;
    forall app ensures app in build <==> SomeRebuilds(ws, changed, app) { ChangeRebuilds(ws, changed, build, app); }
    forall i, app | 0 <= i < |changed| && Trim(changed[i]) in {"pyproject.toml", "uv.lock", ".dockerignore"}
      ensures SomeRebuilds(ws, changed, app) <==> app in ws.buildable
    {
      RootFileRebuilds(ws, changed, i, app);
    }
  }

  ghost predicate SomeRebuilds(ws: Workspace, changed: seq<string>, app: string) {
    exists i :: 0 <= i < |changed| && RebuiltFor(ws, Trim(changed[i]), app)
  }

  lemma ChangeRebuilds(ws: Workspace, changed: seq<string>, build: set<string>, app: string)
    requires IsUnion(ServicesIn(ws), changed, build)
    ensures app in build <==> SomeRebuilds(ws, changed, app)
  {
    if app in build {
      var i :| 0 <= i < |changed| && app in ServicesIn(ws)(changed[i]);
      PathRebuilds(ws, changed[i], Trim(changed[i]), app);
    }
    if SomeRebuilds(ws, changed, app) {
      var i :| 0 <= i < |changed| && RebuiltFor(ws, Trim(changed[i]), app);
      PathRebuilds(ws, changed[i], Trim(changed[i]), app);
      assert ServicesIn(ws)(changed[i]) <= build;
    }
  }

  lemma RootFileRebuilds(ws: Workspace, changed: seq<string>, i: nat, app: string)
    requires i < |changed| && Trim(changed[i]) in {"pyproject.toml", "uv.lock", ".dockerignore"}
    ensures SomeRebuilds(ws, changed, app) <==> app in ws.buildable
  {
    if app in ws.buildable { assert RebuiltFor(ws, Trim(changed[i]), app); }
  }

  lemma UnderASlash(path: string, dir: string, k: nat)
    requires k < |dir| && dir[k] == '/' && Under(path, dir)
    ensures '/' in path
  {
    assert path[k] == dir[k];
  }

  lemma MemberUnderASlash(path: string, dir: string)
    requires IsMemberDir(dir) && Under(path, dir)
    ensures '/' in path
  {
    if exists name :: '/' !in name && dir == "packages/" + name {
      UnderASlash(path, dir, 8);
    } else {
      UnderASlash(path, dir, 7);
    }
  }

  /** A path that rebuilds anything is one of the three root files or has a slash. */
  lemma RebuildsUnderASlash(ws: Workspace, path: string, app: string)
    requires RebuiltFor(ws, path, app) && path !in {"pyproject.toml", "uv.lock", ".dockerignore"}
    ensures '/' in path
  {
    if OwnFile(path, app) {
      UnderASlash(path, "apps/" + app, 4);
    } else {
      var dir :| IsMemberDir(dir) && Under(path, dir);
      MemberUnderASlash(path, dir);
    }
  }

  /** Any other path without a slash rebuilds nothing. */
  lemma OtherRootFiles(ws: Workspace, raw: string, path: string)
    requires path == Trim(raw) && '/' !in path && path !in {"pyproject.toml", "uv.lock", ".dockerignore"}
    ensures Services(ws, raw) == {}
  {
    forall app ensures app !in Services(ws, raw) {
      PathRebuilds(ws, raw, path, app);
      if RebuiltFor(ws, path, app) { RebuildsUnderASlash(ws, path, app); }
    }
  }

  lemma BlankTouchesNothing(ws: Workspace, raw: string)
    requires Trim(raw) == ""
    ensures Services(ws, raw) == {}
  {
    assert Split("", '/') == [""];
  }

  /** Neither the order nor the repetition of paths matters, nor blanks around them. */
  lemma OrderAndRepetitionIgnored(ws: Workspace, a: seq<string>, b: seq<string>, x: set<string>, y: set<string>)
    requires IsUnion(ServicesIn(ws), a, x) && IsUnion(ServicesIn(ws), b, y)
    requires Covers(Trim, a, b) && Covers(Trim, b, a)
    ensures x == y
  {
    var f, g: string -> string := ServicesIn(ws), Trim;
    forall p, q | g(p) == g(q) ensures f(p) == f(q) {
      assert Trim(p) == Trim(q);
    }
    UnionWithin(f, g, a, b, x, y);
    UnionWithin(f, g, b, a, y, x);
  }

  lemma NoGlobalFileHasASlash(path: string, i: nat)
    requires i < |path| && path[i] == '/'
    ensures path !in GLOBAL_ROOT_FILES
  {
  }

  function Inside(top: string, name: string, rest: string): string {
    top + ['/'] + (name + ['/'] + rest)
  }

  /** The buildable apps that reach the package in directory `dir`; none when no package is there. */
  ghost function Reaching(ws: Workspace, dir: string): set<string> {
    if dir in ws.dirToName then Dependents(ws, ws.dirToName[dir]) else {}
  }

  /** A file anywhere inside a package rebuilds exactly the buildable apps whose package reaches it;
      inside an app, that app alone; under any directory but the three, nothing. */
  lemma FileInside(ws: Workspace, top: string, name: string, rest: string)
    requires '/' !in top && '/' !in name
    requires Trim(Inside(top, name, rest)) == Inside(top, name, rest)
    ensures top == "packages" ==> Services(ws, Inside(top, name, rest)) == Reaching(ws, "packages/" + name)
    ensures top == "apps" ==> Services(ws, Inside(top, name, rest)) == {name} * ws.buildable
    ensures top !in {"apps", "packages", "plugins"} ==> Services(ws, Inside(top, name, rest)) == {}
  {
    TouchesInside(top, name, rest);
    Shape(top, name, Split(rest, '/'));
  }

  /** A plugin lies one directory deeper. */
  lemma PluginFileInside(ws: Workspace, top: string, kind: string, name: string, rest: string)
    requires top == "plugins" && '/' !in kind && '/' !in name
    requires Trim(Inside(top, kind, name + ['/'] + rest)) == Inside(top, kind, name + ['/'] + rest)
    ensures Services(ws, Inside(top, kind, name + ['/'] + rest)) == Reaching(ws, "plugins/" + kind + "/" + name)
  {
    var touched := PluginTouched(top, kind, name, rest);
    Rebuilds(ws, Inside(top, kind, name + ['/'] + rest), touched);
    MemberRebuilds(ws, touched, "plugins/" + kind + "/" + name);
  }

  lemma Rebuilds(ws: Workspace, path: string, touched: Touched)
    requires Trim(path) == path && Touches(path) == touched
    ensures Services(ws, path) == Rebuilt(ws, touched)
  {
  }

  lemma MemberRebuilds(ws: Workspace, touched: Touched, dir: string)
    requires touched == Member(dir)
    ensures Rebuilt(ws, touched) == Reaching(ws, dir)
  {
  }

  lemma PluginTouched(top: string, kind: string, name: string, rest: string) returns (touched: Touched)
    requires top == "plugins" && '/' !in kind && '/' !in name
    ensures Touches(Inside(top, kind, name + ['/'] + rest)) == touched == Member("plugins/" + kind + "/" + name)
  {
    touched := Touches(Inside(top, kind, name + ['/'] + rest));
    TouchesInside(top, kind, name + ['/'] + rest);
    PluginShape(top, kind, name, rest);
  }

  lemma TouchesInside(top: string, name: string, rest: string)
    requires '/' !in top && '/' !in name
    ensures Touches(Inside(top, name, rest)) == TouchesPart([top] + ([name] + Split(rest, '/')))
  {
    SplitAfter(top, '/', name + ['/'] + rest);
    SplitAfter(name, '/', rest);
    NoGlobalFileHasASlash(Inside(top, name, rest), |top|);
  }

  lemma Shape(top: string, name: string, rest: seq<string>)
    ensures top == "packages" ==> TouchesPart([top] + ([name] + rest)) == Member("packages/" + name)
    ensures top == "apps" ==> TouchesPart([top] + ([name] + rest)) == App(name)
    ensures top !in {"apps", "packages", "plugins"} ==> TouchesPart([top] + ([name] + rest)) == Nothing
  {
  }

  lemma PluginShape(top: string, kind: string, name: string, rest: string)
    requires top == "plugins" && '/' !in name
    ensures TouchesPart([top] + ([kind] + Split(name + ['/'] + rest, '/'))) == Member("plugins/" + kind + "/" + name)
  {
    SplitAfter(name, '/', rest);
    var parts := [top] + ([kind] + ([name] + Split(rest, '/')));
    assert parts[0] == top && parts[1] == kind && parts[2] == name;
  }
}
