/** What a worklist that never expands a node twice has to find: everything a walk can reach. */
module Closure {
  ghost predicate Walk<T>(next: T -> set<T>, starts: set<T>, walk: seq<T>) {
    |walk| > 0 && walk[0] in starts && forall i :: 0 < i < |walk| ==> walk[i] in next(walk[i - 1])
  }

  ghost predicate Reachable<T(!new)>(next: T -> set<T>, starts: set<T>, node: T) {
    exists walk :: Walk(next, starts, walk) && walk[|walk| - 1] == node
  }

  lemma StartIsReachable<T(!new)>(next: T -> set<T>, starts: set<T>, node: T)
    requires node in starts
    ensures Reachable(next, starts, node)
  {
    assert Walk(next, starts, [node]) && [node][|[node]| - 1] == node;
  }

  lemma StepIsReachable<T(!new)>(next: T -> set<T>, starts: set<T>, node: T, child: T)
    requires Reachable(next, starts, node) && child in next(node)
    ensures Reachable(next, starts, child)
  {
    var walk :| Walk(next, starts, walk) && walk[|walk| - 1] == node;
    var more := walk + [child];
    assert Walk(next, starts, more) && more[|more| - 1] == child;
  }

  lemma {:induction false} WalkStaysIn<T>(next: T -> set<T>, starts: set<T>, nodes: set<T>, walk: seq<T>)
    requires starts <= nodes && (forall n :: n in nodes ==> next(n) <= nodes) && Walk(next, starts, walk)
    ensures walk[|walk| - 1] in nodes
  {
    if |walk| > 1 {
      WalkStaysIn(next, starts, nodes, walk[..|walk| - 1]);
    }
  }

  /** Only reachable nodes were met, and what an expanded node leads to was expanded or is left to do. */
  ghost predicate Progress<T(!new)>(next: T -> set<T>, starts: set<T>, seen: set<T>, left: set<T>) {
    (forall n :: n in seen + left ==> Reachable(next, starts, n)) && starts <= seen + left &&
    forall n :: n in seen ==> next(n) <= seen + left
  }

  lemma Begin<T(!new)>(next: T -> set<T>, starts: set<T>)
    ensures Progress(next, starts, {}, starts)
  {
    forall n | n in starts ensures Reachable(next, starts, n) {
      StartIsReachable(next, starts, n);
    }
  }

  lemma Skip<T(!new)>(next: T -> set<T>, starts: set<T>, seen: set<T>, left: set<T>, node: T, rest: set<T>)
    requires Progress(next, starts, seen, left) && rest <= left <= rest + {node} && node in seen
    ensures Progress(next, starts, seen, rest)
  {
  }

  lemma Expand<T(!new)>(next: T -> set<T>, starts: set<T>, seen: set<T>, left: set<T>, node: T, rest: set<T>)
    requires Progress(next, starts, seen, left) && rest <= left <= rest + {node} && node in left
    ensures Progress(next, starts, seen + {node}, rest + next(node))
  {
    forall n | n in next(node) ensures Reachable(next, starts, n) {
      StepIsReachable(next, starts, node, n);
    }
  }

  /** When nothing is left, the expanded nodes are the reachable ones. */
  lemma Finish<T(!new)>(next: T -> set<T>, starts: set<T>, seen: set<T>)
    requires Progress(next, starts, seen, {})
    ensures forall n :: Reachable(next, starts, n) <==> n in seen
  {
    forall n | Reachable(next, starts, n) ensures n in seen {
      var walk :| Walk(next, starts, walk) && walk[|walk| - 1] == n;
      WalkStaysIn(next, starts, seen, walk);
    }
  }

  lemma Fewer<T>(universe: set<T>, seen: set<T>, node: T)
    requires node in universe && node !in seen
    ensures |universe - (seen + {node})| < |universe - seen|
  {
    assert universe - seen == (universe - (seen + {node})) + {node};
  }
}

/** The files a sandboxed program may load, found from the dynamic-loader entries of its executable. */
module Loader {
  import opened Common
  import opened Closure

  datatype Elf = Elf(interp: Option<string>, needed: seq<string>)

  /** The file system as the two worklists see it: what a path canonicalizes to (itself when it does
      not), the loader entries of a file (None when it cannot be read), where a library name is found,
      and whether a file can be copied. */
  datatype System = System(canon: string -> string, deps: string -> Option<Elf>,
                           resolve: string -> Option<string>, copies: string -> bool)

  /** Canonical paths are their own canonical path, and a file has one content under all its names. */
  ghost predicate Coherent(sys: System) {
    forall p :: sys.canon(sys.canon(p)) == sys.canon(p) && sys.deps(sys.canon(p)) == sys.deps(p)
  }

  /** The entries of this file can be read and every library they name is found. */
  predicate Whole(sys: System, path: string) {
    sys.deps(path).Some? && forall i :: 0 <= i < |sys.deps(path).value.needed| ==>
      sys.resolve(sys.deps(path).value.needed[i]).Some?
  }

  function Found(sys: System, names: seq<string>): set<string> {
    set i | 0 <= i < |names| && sys.resolve(names[i]).Some? :: sys.resolve(names[i]).value
  }

  /** The paths a file refers to. */
  function Paths(sys: System, path: string): set<string> {
    match sys.deps(path)
    case None => {}
    case Some(elf) => (if elf.interp.Some? then {elf.interp.value} else {}) + Found(sys, elf.needed)
  }

  function Canons(sys: System, paths: set<string>): set<string> {
    set p | p in paths :: sys.canon(p)
  }

  function NextCanon(sys: System): string -> set<string> {
    path => Canons(sys, Paths(sys, path))
  }

  function NextPath(sys: System): string -> set<string> {
    path => Paths(sys, path)
  }

  ghost predicate RefersTo(sys: System, elf: Elf, p: string) {
    elf.interp == Some(p) || exists i :: 0 <= i < |elf.needed| && sys.resolve(elf.needed[i]) == Some(p)
  }

  /** A file refers to its interpreter, and to the libraries that its needed names are found as. */
  lemma PathsAre(sys: System, path: string, p: string)
    ensures p in Paths(sys, path) <==> sys.deps(path).Some? && RefersTo(sys, sys.deps(path).value, p)
  {
    if sys.deps(path).Some? {
      var names := sys.deps(path).value.needed;
      if p in Found(sys, names) {
        var i :| 0 <= i < |names| && sys.resolve(names[i]).Some? && sys.resolve(names[i]).value == p;
        assert sys.resolve(names[i]) == Some(p);
      }
    }
  }

  ghost predicate IsFile(sys: System, exe: string, canon: string) {
    Reachable(NextCanon(sys), {sys.canon(exe)}, canon)
  }

  ghost predicate IsPath(sys: System, exe: string, path: string) {
    Reachable(NextPath(sys), {exe}, path)
  }

  // ---------------------------------------------------------------- loader_files

  function Entry(sys: System, path: string): seq<string> {
    if sys.canon(path) == path then [path] else [sys.canon(path), path]
  }

  /** The list that results from expanding these paths, in this order. */
  function Entries(sys: System, order: seq<string>): seq<string> {
    if order == [] then [] else Entries(sys, order[..|order| - 1]) + Entry(sys, order[|order| - 1])
  }

  ghost predicate EachOnce(sys: System, order: seq<string>) {
    forall i, j :: 0 <= i < j < |order| ==> sys.canon(order[i]) != sys.canon(order[j])
  }

  function CanonsOf(sys: System, order: seq<string>): set<string> {
    set i | 0 <= i < |order| :: sys.canon(order[i])
  }

  /** The path is the executable or is referred to by a file the loader needs. */
  ghost predicate Named(sys: System, exe: string, path: string) {
    path == exe || exists c :: IsFile(sys, exe, c) && path in Paths(sys, c)
  }

  function Members(s: seq<string>): set<string> {
    set i | 0 <= i < |s| :: s[i]
  }

  lemma CanonsGrow(sys: System, a: set<string>, b: set<string>)
    ensures Canons(sys, a + b) == Canons(sys, a) + Canons(sys, b)
  {
  }

  lemma FoundGrows(sys: System, names: seq<string>, i: nat)
    requires i < |names| && sys.resolve(names[i]).Some?
    ensures Found(sys, names[..i + 1]) == Found(sys, names[..i]) + {sys.resolve(names[i]).value}
  {
  }

  lemma Push(s: seq<string>, x: string)
    ensures Members(s + [x]) == Members(s) + {x}
  {
    assert forall i :: 0 <= i < |s| ==> (s + [x])[i] == s[i];
    assert (s + [x])[|s|] == x;
  }

  lemma Pop(s: seq<string>)
    requires s != []
    ensures Members(s) == Members(s[..|s| - 1]) + {s[|s| - 1]}
  {
    assert s == s[..|s| - 1] + [s[|s| - 1]];
    Push(s[..|s| - 1], s[|s| - 1]);
  }

  /** Pushes what a file refers to, or fails at the first name that is found nowhere. */
  method PushPaths(sys: System, canon: string, stack: seq<string>) returns (r: Result<seq<string>, string>)
    ensures r.Ok? <==> Whole(sys, canon)
    ensures r.Err? ==> r.error == "failed"
    ensures r.Ok? ==> Members(r.value) == Members(stack) + Paths(sys, canon)
  {
    var deps := sys.deps(canon);
    if deps.None? {
      return Err("failed");
    }
    var pending := stack;
    if deps.value.interp.Some? {
      Push(pending, deps.value.interp.value);
      pending := pending + [deps.value.interp.value];
    }
    ghost var base := Members(pending);
    var needed := deps.value.needed;
    for i := 0 to |needed|
      invariant forall k :: 0 <= k < i ==> sys.resolve(needed[k]).Some?
      invariant Members(pending) == base + Found(sys, needed[..i])
    {
      var lib := sys.resolve(needed[i]);
      if lib.None? {
        return Err("failed");
      }
      FoundGrows(sys, needed, i);
      Push(pending, lib.value);
      pending := pending + [lib.value];
    }
    assert needed[..|needed|] == needed;
    r := Ok(pending);
  }

  /** What `loader_files` keeps: each listed path and each path to do is one a needed file refers to. */
  ghost predicate AllNamed(sys: System, exe: string, paths: set<string>) {
    forall p :: p in paths ==> Named(sys, exe, p)
  }

  lemma PathsAreNamed(sys: System, exe: string, canon: string)
    requires IsFile(sys, exe, canon)
    ensures AllNamed(sys, exe, Paths(sys, canon))
  {
  }

  lemma ListOne(sys: System, order: seq<string>, path: string)
    requires EachOnce(sys, order) && sys.canon(path) !in CanonsOf(sys, order)
    ensures EachOnce(sys, order + [path])
    ensures CanonsOf(sys, order + [path]) == CanonsOf(sys, order) + {sys.canon(path)}
    ensures Entries(sys, order + [path]) ==
      if sys.canon(path) == path then Entries(sys, order) + [path] else Entries(sys, order) + [sys.canon(path)] + [path]
  {
    var more := order + [path];
    assert more[..|order|] == order;
    assert forall i :: 0 <= i < |order| ==> more[i] == order[i] && sys.canon(order[i]) in CanonsOf(sys, order);
    assert more[|order|] == path;
  }

  method LoaderFiles(sys: System, exe: string, ghost universe: set<string>)
    returns (r: Result<seq<string>, string>, ghost order: seq<string>)
    requires sys.canon(exe) in universe && forall c :: c in universe ==> NextCanon(sys)(c) <= universe
    ensures r.Ok? <==> forall c :: IsFile(sys, exe, c) ==> Whole(sys, c)
    ensures r.Err? ==> r.error == "failed"
    ensures r.Ok? ==> r.value == Entries(sys, order) && EachOnce(sys, order)
    ensures r.Ok? ==> forall c :: c in CanonsOf(sys, order) <==> IsFile(sys, exe, c)
    ensures r.Ok? ==> AllNamed(sys, exe, Members(order))
  {
    hide Entries, CanonsOf, EachOnce, Members, Paths, Whole, Progress, Reachable, Canons;
    var pending, seen, files := [exe], {}, [];
    order := [];
    StartsAt(sys, exe);
    while pending != []
      invariant seen == CanonsOf(sys, order) && files == Entries(sys, order) && EachOnce(sys, order)
      invariant AllNamed(sys, exe, Members(pending)) && AllNamed(sys, exe, Members(order))
      invariant seen + Canons(sys, Members(pending)) <= universe
      invariant Progress(NextCanon(sys), {sys.canon(exe)}, seen, Canons(sys, Members(pending)))
      invariant forall c :: c in seen ==> Whole(sys, c)
      decreases |universe - seen|, |pending|
    {
      var path := pending[|pending| - 1];
      Popped(sys, pending);
      ghost var left := Canons(sys, Members(pending));
      pending := pending[..|pending| - 1];
      var canon := sys.canon(path);
      if canon in seen {
        Skip(NextCanon(sys), {sys.canon(exe)}, seen, left, canon, Canons(sys, Members(pending)));
        continue;
      }
      IsOneOf(sys, exe, seen, left, canon);
      ListOne(sys, order, path);
      Push(order, path);
      Fewer(universe, seen, canon);
      Expand(NextCanon(sys), {sys.canon(exe)}, seen, left, canon, Canons(sys, Members(pending)));
      PathsAreNamed(sys, exe, canon);
      CanonsGrow(sys, Members(pending), Paths(sys, canon));
      seen := seen + {canon};
      files := files + [canon];
      if canon != path {
        files := files + [path];
      }
      order := order + [path];
      var pushed := PushPaths(sys, canon, pending);
      if pushed.Err? {
        return pushed, order;
      }
      pending := pushed.value;
    }
    NothingLeft(sys, pending);
    Finish(NextCanon(sys), {sys.canon(exe)}, seen);
    r := Ok(files);
  }

  lemma StartsAt(sys: System, exe: string)
    ensures Canons(sys, Members([exe])) == {sys.canon(exe)} && CanonsOf(sys, []) == {} && EachOnce(sys, [])
    ensures Members([exe]) == {exe} && Members([]) == {} && Entries(sys, []) == []
    ensures Progress(NextCanon(sys), {sys.canon(exe)}, {}, {sys.canon(exe)})
  {
    assert [exe][0] == exe;
    Begin(NextCanon(sys), {sys.canon(exe)});
  }

  lemma NothingLeft(sys: System, pending: seq<string>)
    requires pending == []
    ensures Canons(sys, Members(pending)) == {}
  {
  }

  lemma Popped(sys: System, s: seq<string>)
    requires s != []
    ensures var rest, last := s[..|s| - 1], s[|s| - 1];
      Members(s) == Members(rest) + {last} && Canons(sys, Members(s)) == Canons(sys, Members(rest)) + {sys.canon(last)}
  {
    Pop(s);
  }

  lemma IsOneOf(sys: System, exe: string, seen: set<string>, left: set<string>, canon: string)
    requires Progress(NextCanon(sys), {sys.canon(exe)}, seen, left) && canon in left
    ensures IsFile(sys, exe, canon)
  {
  }

  // ---------------------------------------------------------------- what the list holds

  lemma {:induction false} EntriesHold(sys: System, order: seq<string>, f: string)
    ensures f in Entries(sys, order) <==> f in CanonsOf(sys, order) || f in order
  {
    if order != [] {
      var before, last := order[..|order| - 1], order[|order| - 1];
      EntriesHold(sys, before, f);
      assert order == before + [last];
      OneMoreCanon(sys, before, last);
    }
  }

  lemma OneMoreCanon(sys: System, order: seq<string>, path: string)
    ensures CanonsOf(sys, order + [path]) == CanonsOf(sys, order) + {sys.canon(path)}
  {
    assert forall i :: 0 <= i < |order| ==> (order + [path])[i] == order[i];
    assert (order + [path])[|order|] == path;
  }

  /** The canonical paths of the list are exactly the files the loader can reach from the executable;
      every other entry is another name of one of them. */
  lemma ListedFilesAreTheReachable(sys: System, exe: string, order: seq<string>)
    requires Coherent(sys) && forall c :: c in CanonsOf(sys, order) <==> IsFile(sys, exe, c)
    ensures forall f :: IsFile(sys, exe, f) <==> f in Entries(sys, order) && sys.canon(f) == f
    ensures forall f :: f in Entries(sys, order) ==> IsFile(sys, exe, sys.canon(f))
  {
    forall f ensures (IsFile(sys, exe, f) <==> f in Entries(sys, order) && sys.canon(f) == f) &&
      (f in Entries(sys, order) ==> IsFile(sys, exe, sys.canon(f)))
    {
      EntriesHold(sys, order, f);
      assert f in order ==> sys.canon(f) in CanonsOf(sys, order);
    }
  }

  /** Another name of a file stands right behind the file. */
  lemma {:induction false} AliasFollows(sys: System, order: seq<string>, i: nat)
    requires Coherent(sys) && i < |Entries(sys, order)| && sys.canon(Entries(sys, order)[i]) != Entries(sys, order)[i]
    ensures i > 0 && Entries(sys, order)[i - 1] == sys.canon(Entries(sys, order)[i])
  {
    if order != [] {
      var before := Entries(sys, order[..|order| - 1]);
      if i < |before| { AliasFollows(sys, order[..|order| - 1], i); }
    }
  }

  lemma JoinsApart(a: seq<string>, b: seq<string>)
    requires Distinct(a) && Distinct(b) && forall f :: f in a ==> f !in b
    ensures Distinct(a + b)
  {
    forall i, j | 0 <= i < j < |a + b| ensures (a + b)[i] != (a + b)[j] {
      assert i < |a| ==> (a + b)[i] == a[i] && a[i] in a;
      assert j >= |a| ==> (a + b)[j] == b[j - |a|] && b[j - |a|] in b;
    }
  }

  lemma {:induction false} NothingIsListedTwice(sys: System, order: seq<string>)
    requires Coherent(sys) && EachOnce(sys, order)
    ensures Distinct(Entries(sys, order))
  {
    if order != [] {
      var before, last := order[..|order| - 1], order[|order| - 1];
      NothingIsListedTwice(sys, before);
      forall f | f in Entries(sys, before) ensures f !in Entry(sys, last) {
        EntriesHold(sys, before, f);
        assert f in before ==> sys.canon(f) in CanonsOf(sys, before);
      }
      JoinsApart(Entries(sys, before), Entry(sys, last));
    }
  }

  // ---------------------------------------------------------------- stage_root

  ghost predicate Absolute(path: string) {
    |path| > 0 && path[0] == '/'
  }

  /** Staging copies a file under its own path below the new root. */
  ghost predicate Stageable(sys: System, path: string) {
    Absolute(path) && sys.copies(path)
  }

  /** Everything a file refers to is found and can be copied. */
  ghost predicate WholeAndStaged(sys: System, path: string) {
    Whole(sys, path) && forall p :: p in Paths(sys, path) ==> Stageable(sys, p)
  }

  /** One round of `stage_root`: copies and pushes what a file refers to. */
  method StagePaths(sys: System, path: string, stack: seq<string>, copied: set<string>)
    returns (r: Result<(seq<string>, set<string>), string>)
    ensures r.Ok? <==> WholeAndStaged(sys, path)
    ensures r.Err? ==> r.error == "failed"
    ensures r.Ok? ==> Members(r.value.0) == Members(stack) + Paths(sys, path)
    ensures r.Ok? ==> r.value.1 == copied + Paths(sys, path)
  {
    hide Members;
    var deps := sys.deps(path);
    if deps.None? {
      return Err("failed");
    }
    var pending, done := stack, copied;
    if deps.value.interp.Some? {
      var interp := deps.value.interp.value;
      if !(|interp| > 0 && interp[0] == '/' && sys.copies(interp)) {
        assert interp in Paths(sys, path);
        return Err("failed");
      }
      Push(pending, interp);
      pending, done := pending + [interp], done + {interp};
    }
    ghost var base, was := Members(pending), done;
    var needed := deps.value.needed;
    for i := 0 to |needed|
      invariant forall k :: 0 <= k < i ==> sys.resolve(needed[k]).Some? && Stageable(sys, sys.resolve(needed[k]).value)
      invariant Members(pending) == base + Found(sys, needed[..i])
      invariant done == was + Found(sys, needed[..i])
    {
      var lib := sys.resolve(needed[i]);
      if lib.None? {
        return Err("failed");
      }
      if !(|lib.value| > 0 && lib.value[0] == '/' && sys.copies(lib.value)) {
        assert lib.value in Paths(sys, path);
        return Err("failed");
      }
      FoundGrows(sys, needed, i);
      Push(pending, lib.value);
      pending, done := pending + [lib.value], done + {lib.value};
    }
    assert needed[..|needed|] == needed;
    r := Ok((pending, done));
  }

  method StageRoot(sys: System, exe: string, ghost universe: set<string>) returns (r: Result<set<string>, string>)
    requires exe in universe && forall p :: p in universe ==> NextPath(sys)(p) <= universe
    ensures r.Ok? <==> sys.copies(exe) && forall p :: IsPath(sys, exe, p) ==> WholeAndStaged(sys, p)
    ensures r.Err? ==> r.error == "failed"
    ensures r.Ok? ==> forall p :: p in r.value + {exe} <==> IsPath(sys, exe, p)
    ensures r.Ok? ==> AllStaged(sys, r.value)
  {
    hide Members, Paths, Progress, Reachable, WholeAndStaged, AllStaged;
    var copied := {};
    NoneStaged(sys);
    if !sys.copies(exe) {
      return Err("failed");
    }
    var pending, seen := [exe], {};
    StageStartsAt(sys, exe);
    while pending != []
      invariant seen + Members(pending) <= universe
      invariant Progress(NextPath(sys), {exe}, seen, Members(pending))
      invariant forall p :: p in seen ==> WholeAndStaged(sys, p)
      invariant copied + {exe} == seen + Members(pending)
      invariant AllStaged(sys, copied)
      decreases |universe - seen|, |pending|
    {
      var path := pending[|pending| - 1];
      Pop(pending);
      ghost var left := Members(pending);
      pending := pending[..|pending| - 1];
      if path in seen {
        Skip(NextPath(sys), {exe}, seen, left, path, Members(pending));
        StillLeft(copied + {exe}, seen, left, path, Members(pending));
        continue;
      }
      PathIsOneOf(sys, exe, seen, left, path);
      Fewer(universe, seen, path);
      Copied(copied, exe, seen, left, path, Members(pending), Paths(sys, path));
      Expand(NextPath(sys), {exe}, seen, left, path, Members(pending));
      seen := seen + {path};
      var pushed := StagePaths(sys, path, pending, copied);
      if pushed.Err? {
        return Err("failed");
      }
      StagedHere(sys, path, copied);
      pending, copied := pushed.value.0, pushed.value.1;
    }
    NoMembers(pending);
    Finish(NextPath(sys), {exe}, seen);
    r := Ok(copied);
  }

  /** What is copied has an absolute path, below which it lands in the new root, and could be copied. */
  ghost predicate AllStaged(sys: System, paths: set<string>) {
    forall p :: p in paths ==> "/" <= p && sys.copies(p)
  }

  lemma NoneStaged(sys: System)
    ensures AllStaged(sys, {})
  {}

  lemma StagedHere(sys: System, path: string, copied: set<string>)
    requires WholeAndStaged(sys, path) && AllStaged(sys, copied)
    ensures AllStaged(sys, copied + Paths(sys, path))
  {
    hide Paths, Whole;
    forall p | p in Paths(sys, path) ensures "/" <= p {
      assert Absolute(p);
      assert p[..1] == "/";
    }
  }

  lemma StillLeft(all: set<string>, seen: set<string>, left: set<string>, path: string, rest: set<string>)
    requires all == seen + left && left == rest + {path} && path in seen
    ensures all == seen + rest
  {
  }

  lemma Copied(copied: set<string>, exe: string, seen: set<string>, left: set<string>, path: string,
               rest: set<string>, paths: set<string>)
    requires copied + {exe} == seen + left && left == rest + {path}
    ensures copied + paths + {exe} == seen + {path} + (rest + paths)
  {
  }

  lemma NoMembers(pending: seq<string>)
    requires pending == []
    ensures Members(pending) == {}
  {
  }

  lemma StageStartsAt(sys: System, exe: string)
    ensures Members([exe]) == {exe} && Progress(NextPath(sys), {exe}, {}, {exe})
  {
    assert [exe][0] == exe;
    Begin(NextPath(sys), {exe});
  }

  lemma PathIsOneOf(sys: System, exe: string, seen: set<string>, left: set<string>, path: string)
    requires Progress(NextPath(sys), {exe}, seen, left) && path in left
    ensures IsPath(sys, exe, path)
  {
  }

  // ---------------------------------------------------------------- both see the same files

  lemma SameContent(sys: System, path: string)
    requires Coherent(sys)
    ensures Paths(sys, sys.canon(path)) == Paths(sys, path) && (Whole(sys, sys.canon(path)) <==> Whole(sys, path))
  {
  }

  function Image(sys: System, walk: seq<string>): seq<string> {
    seq(|walk|, i requires 0 <= i < |walk| => sys.canon(walk[i]))
  }

  lemma PathLeadsToFile(sys: System, exe: string, path: string)
    requires Coherent(sys) && IsPath(sys, exe, path)
    ensures IsFile(sys, exe, sys.canon(path))
  {
    var walk :| Walk(NextPath(sys), {exe}, walk) && walk[|walk| - 1] == path;
    var image := Image(sys, walk);
    forall i | 0 < i < |image| ensures image[i] in NextCanon(sys)(image[i - 1]) {
      SameContent(sys, walk[i - 1]);
    }
    assert Walk(NextCanon(sys), {sys.canon(exe)}, image) && image[|image| - 1] == sys.canon(path);
  }

  lemma {:induction false} FileHasPath(sys: System, exe: string, walk: seq<string>) returns (path: string)
    requires Coherent(sys) && Walk(NextCanon(sys), {sys.canon(exe)}, walk)
    ensures IsPath(sys, exe, path) && sys.canon(path) == walk[|walk| - 1]
  {
    if |walk| == 1 {
      path := exe;
      StartIsReachable(NextPath(sys), {exe}, exe);
    } else {
      var before := FileHasPath(sys, exe, walk[..|walk| - 1]);
      SameContent(sys, before);
      path :| path in Paths(sys, before) && sys.canon(path) == walk[|walk| - 1];
      StepIsReachable(NextPath(sys), {exe}, before, path);
    }
  }

  /** The staged copies and the listed files are the same files: the canonical paths of the executable
      and of all that `stage_root` copies are the canonical paths `loader_files` lists. */
  lemma StagedAreListed(sys: System, exe: string, canon: string)
    requires Coherent(sys)
    ensures IsFile(sys, exe, canon) <==> exists p :: IsPath(sys, exe, p) && sys.canon(p) == canon
  {
    if IsFile(sys, exe, canon) {
      var walk :| Walk(NextCanon(sys), {sys.canon(exe)}, walk) && walk[|walk| - 1] == canon;
      var path := FileHasPath(sys, exe, walk);
    }
    forall p | IsPath(sys, exe, p) && sys.canon(p) == canon ensures IsFile(sys, exe, canon) {
      PathLeadsToFile(sys, exe, p);
    }
  }

  /** Listing succeeds whenever staging does, and staging fails beyond that only when a copy fails. */
  lemma StagingIsListingAndCopying(sys: System, exe: string)
    requires Coherent(sys)
    ensures (forall p :: IsPath(sys, exe, p) ==> WholeAndStaged(sys, p)) <==>
      (forall c :: IsFile(sys, exe, c) ==> Whole(sys, c)) &&
      (forall p, q :: IsPath(sys, exe, p) && q in Paths(sys, p) ==> Stageable(sys, q))
  {
    forall c | (forall p :: IsPath(sys, exe, p) ==> WholeAndStaged(sys, p)) && IsFile(sys, exe, c) ensures Whole(sys, c) {
      StagedAreListed(sys, exe, c);
      var p :| IsPath(sys, exe, p) && sys.canon(p) == c;
      SameContent(sys, p);
    }
    forall p | (forall c :: IsFile(sys, exe, c) ==> Whole(sys, c)) && IsPath(sys, exe, p) ensures Whole(sys, p) {
      PathLeadsToFile(sys, exe, p);
      SameContent(sys, p);
    }
  }
}

/** The processes of a browser: the roots and everything they started, within one table of processes. */
module ProcessTree {
  import opened Common
  import opened Closure

  datatype Row = Row(ppid: int, cpu: real, rss: nat)

  function Children(rows: map<int, Row>): int -> set<int> {
    pid => set other | other in rows && rows[other].ppid == pid
  }

  function Present(roots: seq<int>, rows: map<int, Row>): set<int> {
    set pid | pid in rows && pid in roots
  }

  ghost predicate Below(rows: map<int, Row>, roots: seq<int>, pid: int) {
    Reachable(Children(rows), Present(roots, rows), pid)
  }

  lemma PushPid(stack: seq<int>, rows: map<int, Row>, pid: int)
    ensures Present(stack + [pid], rows) == Present(stack, rows) + if pid in rows then {pid} else {}
  {
  }

  lemma PopPid(stack: seq<int>, rows: map<int, Row>)
    requires stack != []
    ensures var rest, last := stack[..|stack| - 1], stack[|stack| - 1];
      Present(stack, rows) == Present(rest, rows) + if last in rows then {last} else {}
  {
    var rest, last := stack[..|stack| - 1], stack[|stack| - 1];
    assert stack == rest + [last];
    PushPid(rest, rows, last);
  }

  /** A dictionary gives its keys in the order they were added. */
  ghost predicate IsOrder(order: seq<int>, rows: map<int, Row>) {
    forall pid :: pid in order <==> pid in rows
  }

  function ChildrenIn(order: seq<int>, rows: map<int, Row>, pid: int): set<int> {
    set other | other in order && other in rows && rows[other].ppid == pid
  }

  lemma ChildrenGrow(order: seq<int>, rows: map<int, Row>, pid: int, i: nat)
    requires i < |order| && order[i] in rows
    ensures ChildrenIn(order[..i + 1], rows, pid) ==
      ChildrenIn(order[..i], rows, pid) + if rows[order[i]].ppid == pid then {order[i]} else {}
  {
    assert order[..i + 1] == order[..i] + [order[i]];
  }

  /** Scans the whole table for children of `pid` and pushes them. */
  method PushChildren(order: seq<int>, rows: map<int, Row>, pid: int, base: seq<int>) returns (stack: seq<int>)
    requires IsOrder(order, rows)
    ensures Present(stack, rows) == Present(base, rows) + Children(rows)(pid)
  {
    stack := base;
    for i := 0 to |order|
      invariant Present(stack, rows) == Present(base, rows) + ChildrenIn(order[..i], rows, pid)
    {
      var other := order[i];
      ChildrenGrow(order, rows, pid, i);
      if rows[other].ppid == pid {
        PushPid(stack, rows, other);
        stack := stack + [other];
      }
    }
    assert order[..|order|] == order;
    assert forall p :: p in ChildrenIn(order, rows, pid) <==> p in Children(rows)(pid);
  }

  method TreeIds(roots: seq<int>, order: seq<int>, rows: map<int, Row>) returns (selected: set<int>)
    requires IsOrder(order, rows)
    ensures forall pid :: pid in selected <==> Below(rows, roots, pid)
  {
    hide Present, Progress;
    selected := {};
    var stack := roots;
    ghost var starts := Present(roots, rows);
    Begin(Children(rows), starts);
    while stack != []
      invariant selected <= rows.Keys
      invariant Progress(Children(rows), starts, selected, Present(stack, rows))
      decreases |rows.Keys - selected|, |stack|
    {
      var pid := stack[|stack| - 1];
      ghost var left := Present(stack, rows);
      PopPid(stack, rows);
      stack := stack[..|stack| - 1];
      if pid in selected || pid !in rows {
        if pid in selected {
          Skip(Children(rows), starts, selected, left, pid, Present(stack, rows));
        }
        continue;
      }
      Fewer(rows.Keys, selected, pid);
      Expand(Children(rows), starts, selected, left, pid, Present(stack, rows));
      selected := selected + {pid};
      stack := PushChildren(order, rows, pid, stack);
    }
    NoneLeft(rows, stack);
    Finish(Children(rows), starts, selected);
  }

  lemma NoneLeft(rows: map<int, Row>, stack: seq<int>)
    requires stack == []
    ensures Present(stack, rows) == {}
  {
  }

  // ---------------------------------------------------------------- read from the bottom up

  /** The process and `steps` of its ancestors are all in the table, and the last one is a root. */
  predicate Descends(rows: map<int, Row>, roots: seq<int>, pid: int, steps: nat)
    decreases steps
  {
    pid in rows && if steps == 0 then pid in roots else Descends(rows, roots, rows[pid].ppid, steps - 1)
  }

  lemma {:induction false} WalkDescends(rows: map<int, Row>, roots: seq<int>, walk: seq<int>)
    requires Walk(Children(rows), Present(roots, rows), walk)
    ensures Descends(rows, roots, walk[|walk| - 1], |walk| - 1)
  {
    if |walk| > 1 {
      WalkDescends(rows, roots, walk[..|walk| - 1]);
    }
  }

  lemma {:induction false} DescentIsBelow(rows: map<int, Row>, roots: seq<int>, pid: int, steps: nat)
    requires Descends(rows, roots, pid, steps)
    ensures Below(rows, roots, pid)
    decreases steps
  {
    if steps == 0 {
      StartIsReachable(Children(rows), Present(roots, rows), pid);
    } else {
      DescentIsBelow(rows, roots, rows[pid].ppid, steps - 1);
      StepIsReachable(Children(rows), Present(roots, rows), rows[pid].ppid, pid);
    }
  }

  ghost predicate HasRootAbove(rows: map<int, Row>, roots: seq<int>, pid: int) {
    exists steps: nat :: Descends(rows, roots, pid, steps)
  }

  /** A process is selected exactly when the chain of its parents leads to a root without leaving the
      table; a cycle of parents or a parent that has gone selects nothing. */
  lemma BelowIsAncestry(rows: map<int, Row>, roots: seq<int>, pid: int)
    ensures Below(rows, roots, pid) <==> HasRootAbove(rows, roots, pid)
  {
    if Below(rows, roots, pid) {
      var walk :| Walk(Children(rows), Present(roots, rows), walk) && walk[|walk| - 1] == pid;
      WalkDescends(rows, roots, walk);
    }
    if HasRootAbove(rows, roots, pid) {
      var steps: nat :| Descends(rows, roots, pid, steps);
      DescentIsBelow(rows, roots, pid, steps);
    }
  }
}
