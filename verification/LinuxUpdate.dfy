/**
  Installing an unpacked update on Linux (updater_linux.cpp): a breadth-first scan of the update tree plans which
  directories to force and which files to copy where; only when the whole scan passed is anything changed.

  The tree is what opendir, readdir (without "." and "..") and stat show: a directory may fail to open, and an entry
  may fail its stat. Whether a directory can be made, an old file removed, or a copy succeeds at a given try are
  choices of the environment.
 */
module LinuxUpdate {
  type Name = string

  /** The names that lead from the update folder to an entry. */
  type Rel = seq<Name>

  datatype Tree = File | Broken | Dir(opens: bool, entries: Entries)

  datatype Entries = Nil | Cons(name: Name, tree: Tree, rest: Entries)

  /** The global settings; `ready` says that the ready file of the new path was found. */
  datatype Setup = Setup(
    workDir: string, exePath: string, exeName: string, updaterName: string, writeProtected: bool, ready: bool)

  // ---------- paths ----------

  predicate PlainName(n: Name) { |n| > 0 && '/' !in n && '\0' !in n }

  predicate PlainNames(rel: Rel) { forall i :: 0 <= i < |rel| ==> PlainName(rel[i]) }

  function Render(rel: Rel): string {
    if |rel| == 0 then "" else Render(rel[..|rel| - 1]) + "/" + rel[|rel| - 1]
  }

  function UpdDir(c: Setup): string { c.workDir + if c.ready then "tupdates/temp" else "tupdates/ready" }

  function TdataDir(c: Setup): string { UpdDir(c) + "/tdata" }

  function ReadyFilePath(c: Setup): string { c.workDir + "tupdates/temp/ready" }

  function Path(c: Setup, rel: Rel): string { UpdDir(c) + Render(rel) }

  /** fname.substr(updDir.size() + 1) */
  function Below(rel: Rel): string
    requires rel != []
  {
    Render(rel)[1..]
  }

  /** The check that skips the tdata folder. */
  predicate IsTdata(c: Setup, path: string) {
    var n := |TdataDir(c)|;
    n <= |path| && path[..n] == TdataDir(c) && (|path| <= n || path[n] == '/')
  }

  lemma {:induction false} RenderFront(n: Name, rel: Rel)
    ensures Render([n] + rel) == "/" + n + Render(rel)
  {
    if rel == [] {
      assert [n] + rel == [n] && [n][..0] == [];
    } else {
      var last := |rel| - 1;
      RenderFront(n, rel[..last]);
      assert ([n] + rel)[..last + 1] == [n] + rel[..last] && ([n] + rel)[last + 1] == rel[last];
    }
  }

  /** What follows a name in a path starts with a slash. */
  lemma {:induction false} RenderStarts(rel: Rel)
    ensures rel != [] ==> Render(rel) != "" && Render(rel)[0] == '/'
  {
    if rel != [] {
      assert rel == [rel[0]] + rel[1..];
      RenderFront(rel[0], rel[1..]);
    }
  }

  /** The length of the first name. */
  function NameLength(s: string): (n: nat)
    ensures n <= |s|
  {
    if |s| == 0 || s[0] == '/' then 0 else 1 + NameLength(s[1..])
  }

  lemma {:induction false} NameEnds(a: Name, x: string)
    requires '/' !in a && (x == "" || x[0] == '/')
    ensures NameLength(a + x) == |a|
  {
    if a == "" {
      assert a + x == x;
    } else {
      assert (a + x)[1..] == a[1..] + x && (a + x)[0] == a[0];
      assert forall i :: 0 <= i < |a| - 1 ==> a[1..][i] == a[i + 1];
      NameEnds(a[1..], x);
    }
  }

  /** Two plain names that both end at a slash or at the end of the same string are the same. */
  lemma SameFirst(a: Name, b: Name, x: string, y: string)
    requires '/' !in a && '/' !in b && a + x == b + y
    requires (x == "" || x[0] == '/') && (y == "" || y[0] == '/')
    ensures a == b && x == y
  {
    var s := a + x;
    NameEnds(a, x);
    NameEnds(b, y);
    assert a == s[..|a|] && b == s[..|b|] && x == s[|a|..] && y == s[|b|..];
  }

  /** Different entries have different paths. */
  lemma {:induction false} RenderInjective(a: Rel, b: Rel)
    requires PlainNames(a) && PlainNames(b) && Render(a) == Render(b)
    ensures a == b
  {
    RenderStarts(a);
    RenderStarts(b);
    if a != [] && b != [] {
      assert a == [a[0]] + a[1..] && b == [b[0]] + b[1..];
      RenderFront(a[0], a[1..]);
      RenderFront(b[0], b[1..]);
      RenderStarts(a[1..]);
      RenderStarts(b[1..]);
      assert a[0] + Render(a[1..]) == Render(a)[1..] && b[0] + Render(b[1..]) == Render(b)[1..];
      SameFirst(a[0], b[0], Render(a[1..]), Render(b[1..]));
      RenderInjective(a[1..], b[1..]);
    }
  }

  /** Past a common start, the check is whether the next name is the one looked for. */
  lemma NameAfter(u: string, n: Name, tail: string, name: Name)
    requires PlainName(n) && PlainName(name) && (tail == "" || tail[0] == '/')
    ensures var path, start := u + "/" + n + tail, u + "/" + name;
            n == name
            <==> |start| <= |path| && path[..|start|] == start && (|path| <= |start| || path[|start|] == '/')
  {
    var path, start := u + "/" + n + tail, u + "/" + name;
    if n == name {
      assert path[..|start|] == start;
    } else if |start| <= |path| && path[..|start|] == start && (|path| <= |start| || path[|start|] == '/') {
      var rest := path[|start|..];
      assert path == start + rest;
      assert path[|u| + 1..] == n + tail && path[|u| + 1..] == name + rest;
      SameFirst(n, name, tail, rest);
    }
  }

  /** The check on the path is whether the first name is tdata. */
  lemma TdataIsFirst(c: Setup, rel: Rel)
    requires rel != [] && PlainNames(rel)
    ensures IsTdata(c, Path(c, rel)) <==> rel[0] == "tdata"
  {
    var u, tail := UpdDir(c), Render(rel[1..]);
    RenderStarts(rel[1..]);
    PathSplit(c, rel);
    assert TdataDir(c) == u + "/" + "tdata";
    hide Render, UpdDir, Path, TdataDir;
    NameAfter(u, rel[0], tail, "tdata");
  }

  lemma PathSplit(c: Setup, rel: Rel)
    requires rel != []
    ensures Path(c, rel) == UpdDir(c) + "/" + rel[0] + Render(rel[1..])
  {
    assert rel == [rel[0]] + rel[1..];
    RenderFront(rel[0], rel[1..]);
    hide Render, UpdDir;
    assert UpdDir(c) + ("/" + rel[0] + Render(rel[1..])) == UpdDir(c) + "/" + rel[0] + Render(rel[1..]);
  }

  lemma ReadyIsMarker(c: Setup, rel: Rel)
    requires rel != [] && PlainNames(rel)
    ensures Path(c, rel) == ReadyFilePath(c) <==> c.ready && rel == ["ready"]
  {
    assert Render(["ready"]) == "/ready" by { RenderFront("ready", []); assert ["ready"] + [] == ["ready"]; }
    if c.ready {
      assert ReadyFilePath(c) == UpdDir(c) + "/ready";
      if Path(c, rel) == ReadyFilePath(c) {
        assert Render(rel) == Path(c, rel)[|UpdDir(c)|..] == ReadyFilePath(c)[|UpdDir(c)|..] == "/ready";
        RenderInjective(rel, ["ready"]);
      }
    } else {
      var k := |c.workDir| + 9;
      assert Path(c, rel)[k] == 'r' && ReadyFilePath(c)[k] == 't';
    }
  }

  // ---------- what the scan plans ----------

  function Lower(s: string): string {
    if |s| == 0 then ""
    else Lower(s[..|s| - 1]) + [if 'A' <= s[|s| - 1] <= 'Z' then s[|s| - 1] - 'A' + 'a' else s[|s| - 1]]
  }

  /** equal: letter case does not matter. */
  predicate Equal(a: string, b: string) { Lower(a) == Lower(b) }

  predicate IsUpdater(c: Setup, rel: Rel)
    requires rel != []
  {
    Equal(c.exePath + Below(rel), c.updaterName)
  }

  /** Where a file goes: the binary takes the name of the running one. */
  function Target(c: Setup, rel: Rel): string
    requires rel != []
  {
    var name := c.exePath + Below(rel);
    if (Equal(name, c.exePath + "LuxuryGram") || (!c.writeProtected && Equal(name, c.exePath + "Telegram")))
       && name != c.exePath + c.exeName
    then c.exePath + c.exeName else name
  }

  /** The directory to force for one of the tree. */
  function Forced(c: Setup, rel: Rel): string
    requires rel != []
  {
    c.exePath + Below(rel) + "/"
  }

  predicate IsMarker(c: Setup, rel: Rel) { c.ready && rel == ["ready"] }

  /** The files to copy, depth first: those outside tdata, except the ready marker. */
  function Files(c: Setup, rel: Rel, es: Entries): seq<Rel>
    decreases es
  {
    match es
    case Nil => []
    case Cons(n, t, rest) =>
      var x := rel + [n];
      (if x[0] == "tdata" then []
       else match t
         case File => if IsMarker(c, x) then [] else [x]
         case Broken => []
         case Dir(_, sub) => Files(c, x, sub))
      + Files(c, rel, rest)
  }

  /** The directories below, each before what is in it. */
  function Dirs(rel: Rel, es: Entries): seq<Rel>
    decreases es
  {
    match es
    case Nil => []
    case Cons(n, t, rest) =>
      var x := rel + [n];
      (if x[0] != "tdata" && t.Dir? then [x] + Dirs(x, t.entries) else []) + Dirs(rel, rest)
  }

  /** Every directory opens and no file is the Updater. */
  predicate Passes(c: Setup, rel: Rel, es: Entries)
    decreases es
  {
    match es
    case Nil => true
    case Cons(n, t, rest) =>
      var x := rel + [n];
      && (x[0] != "tdata" ==>
            match t
            case File => !IsUpdater(c, x)
            case Broken => true
            case Dir(opens, sub) => opens && Passes(c, x, sub))
      && Passes(c, rel, rest)
  }

  ghost predicate WellNamed(es: Entries) {
    match es
    case Nil => true
    case Cons(n, t, rest) =>
      PlainName(n) && n !in Names(rest) && (t.Dir? ==> WellNamed(t.entries)) && WellNamed(rest)
  }

  function Names(es: Entries): set<Name> { match es case Nil => {} case Cons(n, _, rest) => {n} + Names(rest) }

  // ---------- the plan is exact ----------

  /** What the names lead to. */
  function At(es: Entries, names: Rel): Tree
    decreases es
  {
    if names == [] then Broken
    else
      match es
      case Nil => Broken
      case Cons(n, t, rest) =>
        if n != names[0] then At(rest, names)
        else if |names| == 1 then t
        else if t.Dir? then At(t.entries, names[1..]) else Broken
  }

  lemma {:induction false} AtNames(es: Entries, names: Rel)
    requires names != [] && names[0] !in Names(es)
    ensures At(es, names) == Broken
  {
    match es case Nil => case Cons(_, _, rest) => AtNames(rest, names);
  }

  /** How a longer sequence of names goes on after a directory's. */
  lemma NamesSplit(rel: Rel, n: Name, x: Rel)
    ensures rel + [n] <= x <==> rel < x && x[|rel|] == n
    ensures rel + [n] <= x ==>
              && x[|rel|..] == [n] + x[|rel| + 1..] && x[0] == (rel + [n])[0]
              && (rel + [n] == x <==> |x| == |rel| + 1) && (rel + [n] < x <==> |x| > |rel| + 1)
  {
    var y := rel + [n];
    if rel < x && x[|rel|] == n { assert x[..|rel|] == rel && y == x[..|y|]; }
    if y <= x {
      assert x[..|y|] == y && x[|rel|] == y[|rel|] && rel == y[..|rel|];
      assert rel == x[..|rel|];
    }
  }

  /** The files planned below a directory are the regular files below it, but for tdata and the marker. */
  lemma {:induction false} FilesAre(c: Setup, rel: Rel, es: Entries, x: Rel)
    requires WellNamed(es)
    ensures x in Files(c, rel, es) <==>
              && rel < x && At(es, x[|rel|..]) == File && x[0] != "tdata" && !IsMarker(c, x)
    decreases es
  {
    match es
    case Nil =>
    case Cons(n, t, rest) =>
      var y := rel + [n];
      FilesAre(c, rel, rest, x);
      if t.Dir? { FilesAre(c, y, t.entries, x); }
      NamesSplit(rel, n, x);
      if rel < x && x[|rel|] == n { AtNames(rest, x[|rel|..]); }
  }

  /** An entry below a directory, outside tdata, that an update must not have: a closed directory, or the Updater. */
  ghost predicate Refused(c: Setup, rel: Rel, es: Entries, x: Rel) {
    && rel < x && x[0] != "tdata"
    && match At(es, x[|rel|..])
       case File => Equal(c.exePath + Below(x), c.updaterName)
       case Broken => false
       case Dir(opens, _) => !opens
  }

  lemma RefusedIn(c: Setup, rel: Rel, n: Name, t: Tree, rest: Entries, x: Rel)
    requires WellNamed(Cons(n, t, rest))
    ensures var y := rel + [n];
            Refused(c, rel, Cons(n, t, rest), x)
            <==> || Refused(c, rel, rest, x)
                 || (x == y && y[0] != "tdata" && ((t == File && IsUpdater(c, y)) || (t.Dir? && !t.opens)))
                 || (t.Dir? && Refused(c, y, t.entries, x))
  {
    NamesSplit(rel, n, x);
    if rel < x && x[|rel|] == n { AtNames(rest, x[|rel|..]); }
    hide Equal, Below;
  }

  /** A tree passes exactly if nothing in it is refused. */
  lemma {:induction false} PassesAre(c: Setup, rel: Rel, es: Entries)
    requires WellNamed(es)
    ensures Passes(c, rel, es) <==> forall x :: !Refused(c, rel, es, x)
    decreases es
  {
    match es
    case Nil =>
    case Cons(n, t, rest) =>
      var y := rel + [n];
      PassesAre(c, rel, rest);
      if t.Dir? { PassesAre(c, y, t.entries); }
      hide Refused, IsUpdater;
      forall x
        ensures Refused(c, rel, es, x)
                <==> || Refused(c, rel, rest, x)
                     || (x == y && y[0] != "tdata" && ((t == File && IsUpdater(c, y)) || (t.Dir? && !t.opens)))
                     || (t.Dir? && Refused(c, y, t.entries, x))
      {
        RefusedIn(c, rel, n, t, rest, x);
      }
      if t.Dir? && y[0] == "tdata" { NoneRefused(c, y, t.entries); }
      if x :| Refused(c, rel, rest, x) { assert Refused(c, rel, es, x); }
      if t.Dir? {
        if x :| Refused(c, y, t.entries, x) { assert Refused(c, rel, es, x); }
      }
      assert Refused(c, rel, es, y) || !(y[0] != "tdata" && ((t == File && IsUpdater(c, y)) || (t.Dir? && !t.opens)));
  }

  lemma NoneRefused(c: Setup, rel: Rel, es: Entries)
    requires rel != [] && rel[0] == "tdata"
    ensures forall x :: !Refused(c, rel, es, x)
  {
  }

  ghost predicate Distinct(xs: seq<Rel>) { forall i, j :: 0 <= i < j < |xs| ==> xs[i] != xs[j] }

  lemma DistinctConcat(a: seq<Rel>, b: seq<Rel>)
    requires Distinct(a) && Distinct(b) && forall x :: x in a ==> x !in b
    ensures Distinct(a + b)
  {
    var all := a + b;
    forall i, j | 0 <= i < j < |all|
      ensures all[i] != all[j]
    {
      if i < |a| <= j { assert a[i] in a && b[j - |a|] in b; }
    }
  }

  /** Each file is planned once. */
  lemma {:induction false} FilesDistinct(c: Setup, rel: Rel, es: Entries)
    requires WellNamed(es)
    ensures Distinct(Files(c, rel, es))
    decreases es
  {
    match es
    case Nil =>
    case Cons(n, t, rest) =>
      var y := rel + [n];
      var first := if y[0] == "tdata" then []
                   else
                     match t
                     case File => (if IsMarker(c, y) then [] else [y])
                     case Broken => []
                     case Dir(_, sub) => Files(c, y, sub);
      FilesDistinct(c, rel, rest);
      if t.Dir? { FilesDistinct(c, y, t.entries); }
      forall x | x in first
        ensures x !in Files(c, rel, rest)
      {
        assert y <= x by { if t.Dir? { FilesAre(c, y, t.entries, x); } }
        FilesAre(c, rel, rest, x);
        assert x[|rel|..][0] == n;
        AtNames(rest, x[|rel|..]);
      }
      DistinctConcat(first, Files(c, rel, rest));
  }

  lemma {:induction false} DirsAre(rel: Rel, es: Entries, x: Rel)
    requires WellNamed(es)
    ensures x in Dirs(rel, es) <==> rel < x && At(es, x[|rel|..]).Dir? && x[0] != "tdata"
    decreases es
  {
    match es
    case Nil =>
    case Cons(n, t, rest) =>
      var y := rel + [n];
      DirsAre(rel, rest, x);
      if t.Dir? { DirsAre(y, t.entries, x); }
      NamesSplit(rel, n, x);
      if rel < x && x[|rel|] == n { AtNames(rest, x[|rel|..]); }
  }

  // ---------- the scan ----------

  /** A directory in the queue: its names and what opendir finds. */
  datatype Job = Job(rel: Rel, node: Tree)

  predicate Opens(t: Tree) { t.Dir? && t.opens }

  function JobFiles(c: Setup, j: Job): multiset<Rel> {
    if j.node.Dir? then multiset(Files(c, j.rel, j.node.entries)) else multiset{}
  }

  /** The directory itself, but for the root, and those below. */
  function JobDirs(j: Job): multiset<Rel> {
    (if j.rel == [] then multiset{} else multiset{j.rel})
    + if j.node.Dir? then multiset(Dirs(j.rel, j.node.entries)) else multiset{}
  }

  predicate JobPasses(c: Setup, j: Job) { Opens(j.node) && Passes(c, j.rel, j.node.entries) }

  function QueueFiles(c: Setup, q: seq<Job>): multiset<Rel> {
    if |q| == 0 then multiset{} else QueueFiles(c, q[..|q| - 1]) + JobFiles(c, q[|q| - 1])
  }

  function QueueDirs(q: seq<Job>): multiset<Rel> {
    if |q| == 0 then multiset{} else QueueDirs(q[..|q| - 1]) + JobDirs(q[|q| - 1])
  }

  predicate QueuePasses(c: Setup, q: seq<Job>) { forall j :: j in q ==> JobPasses(c, j) }

  lemma {:induction false} FilesFront(c: Setup, q: seq<Job>)
    requires q != []
    ensures QueueFiles(c, q) == JobFiles(c, q[0]) + QueueFiles(c, q[1..])
  {
    hide JobFiles;
    if |q| > 1 {
      FilesFront(c, q[..|q| - 1]);
      assert q[..|q| - 1][1..] == q[1..][..|q| - 2] && q[1..][|q| - 2] == q[|q| - 1];
    } else {
      assert q[..0] == [] && q[1..] == [];
    }
  }

  lemma {:induction false} DirsFront(q: seq<Job>)
    requires q != []
    ensures QueueDirs(q) == JobDirs(q[0]) + QueueDirs(q[1..])
  {
    hide JobDirs;
    if |q| > 1 {
      DirsFront(q[..|q| - 1]);
      assert q[..|q| - 1][1..] == q[1..][..|q| - 2] && q[1..][|q| - 2] == q[|q| - 1];
    } else {
      assert q[..0] == [] && q[1..] == [];
    }
  }

  lemma PassesFront(c: Setup, q: seq<Job>)
    requires q != []
    ensures QueuePasses(c, q) <==> JobPasses(c, q[0]) && QueuePasses(c, q[1..])
  {
    hide JobPasses;
    assert q == [q[0]] + q[1..];
  }

  function Size(t: Tree): nat
    decreases t
  {
    match t case File => 1 case Broken => 1 case Dir(_, es) => 1 + EntriesSize(es)
  }

  function EntriesSize(es: Entries): nat
    decreases es
  {
    match es case Nil => 0 case Cons(_, t, rest) => Size(t) + EntriesSize(rest)
  }

  function QueueSize(q: seq<Job>): nat { if |q| == 0 then 0 else QueueSize(q[..|q| - 1]) + Size(q[|q| - 1].node) }

  lemma {:induction false} QueueSizeFront(q: seq<Job>)
    requires q != []
    ensures QueueSize(q) == Size(q[0].node) + QueueSize(q[1..])
  {
    if |q| > 1 {
      QueueSizeFront(q[..|q| - 1]);
      assert q[..|q| - 1][1..] == q[1..][..|q| - 2] && q[1..][|q| - 2] == q[|q| - 1];
    }
  }

  function TreeFiles(c: Setup, root: Tree): seq<Rel> { if root.Dir? then Files(c, [], root.entries) else [] }

  function TreeDirs(root: Tree): seq<Rel> { if root.Dir? then Dirs([], root.entries) else [] }

  /** Every directory outside tdata opens, and no file is the Updater. */
  predicate TreePasses(c: Setup, root: Tree) { Opens(root) && Passes(c, [], root.entries) }

  /** The plan so far, the queue, and the rest of the directory being read account for the whole tree. */
  ghost predicate FilesAccount(c: Setup, root: Tree, files: seq<Rel>, q: seq<Job>, rel: Rel, rest: Entries) {
    multiset(files) + QueueFiles(c, q) + multiset(Files(c, rel, rest)) == multiset(TreeFiles(c, root))
  }

  ghost predicate DirsAccount(root: Tree, dirs: seq<Rel>, q: seq<Job>, rel: Rel, rest: Entries) {
    multiset(dirs) + QueueDirs(q) + multiset(Dirs(rel, rest)) == multiset(TreeDirs(root))
  }

  ghost predicate PassesAccount(c: Setup, root: Tree, q: seq<Job>, rel: Rel, rest: Entries) {
    QueuePasses(c, q) && Passes(c, rel, rest) <==> TreePasses(c, root)
  }

  ghost predicate Accounts(c: Setup, root: Tree, files: seq<Rel>, dirs: seq<Rel>, q: seq<Job>, rel: Rel,
                           rest: Entries) {
    FilesAccount(c, root, files, q, rel, rest) && DirsAccount(root, dirs, q, rel, rest)
        && PassesAccount(c, root, q, rel, rest)
  }

  lemma SkipAccounts(c: Setup, root: Tree, files: seq<Rel>, dirs: seq<Rel>, q: seq<Job>, rel: Rel, rest: Entries)
    requires rest.Cons? && Accounts(c, root, files, dirs, q, rel, rest)
    requires (rel + [rest.name])[0] == "tdata" || rest.tree.Broken?
             || (rest.tree.File? && IsMarker(c, rel + [rest.name]) && !IsUpdater(c, rel + [rest.name]))
    ensures Accounts(c, root, files, dirs, q, rel, rest.rest)
  {
    assert Files(c, rel, rest) == [] + Files(c, rel, rest.rest) == Files(c, rel, rest.rest);
    assert Dirs(rel, rest) == [] + Dirs(rel, rest.rest) == Dirs(rel, rest.rest);
  }

  lemma FileAccounts(c: Setup, root: Tree, files: seq<Rel>, dirs: seq<Rel>, q: seq<Job>, rel: Rel, rest: Entries)
    requires rest.Cons? && rest.tree.File? && Accounts(c, root, files, dirs, q, rel, rest)
    requires var x := rel + [rest.name]; x[0] != "tdata" && !IsMarker(c, x) && !IsUpdater(c, x)
    ensures Accounts(c, root, files + [rel + [rest.name]], dirs, q, rel, rest.rest)
  {
    var x := rel + [rest.name];
    assert Files(c, rel, rest) == [x] + Files(c, rel, rest.rest);
    assert Dirs(rel, rest) == [] + Dirs(rel, rest.rest) == Dirs(rel, rest.rest);
  }

  lemma DirFiles(c: Setup, root: Tree, files: seq<Rel>, q: seq<Job>, rel: Rel, rest: Entries)
    requires rest.Cons? && rest.tree.Dir? && FilesAccount(c, root, files, q, rel, rest)
          && (rel + [rest.name])[0] != "tdata"
    ensures FilesAccount(c, root, files, q + [Job(rel + [rest.name], rest.tree)], rel, rest.rest)
  {
    var x, t := rel + [rest.name], rest.tree;
    assert Files(c, rel, rest) == Files(c, x, t.entries) + Files(c, rel, rest.rest);
    assert (q + [Job(x, t)])[..|q|] == q;
    hide Files;
  }

  lemma DirDirs(root: Tree, dirs: seq<Rel>, q: seq<Job>, rel: Rel, rest: Entries)
    requires rest.Cons? && rest.tree.Dir? && DirsAccount(root, dirs, q, rel, rest) && (rel + [rest.name])[0] != "tdata"
    ensures DirsAccount(root, dirs, q + [Job(rel + [rest.name], rest.tree)], rel, rest.rest)
  {
    var x, t := rel + [rest.name], rest.tree;
    assert Dirs(rel, rest) == [x] + Dirs(x, t.entries) + Dirs(rel, rest.rest);
    assert (q + [Job(x, t)])[..|q|] == q;
    hide Dirs;
  }

  lemma DirPasses(c: Setup, root: Tree, q: seq<Job>, rel: Rel, rest: Entries)
    requires rest.Cons? && rest.tree.Dir? && PassesAccount(c, root, q, rel, rest) && (rel + [rest.name])[0] != "tdata"
    ensures PassesAccount(c, root, q + [Job(rel + [rest.name], rest.tree)], rel, rest.rest)
  {
    var j := Job(rel + [rest.name], rest.tree);
    assert Passes(c, rel, rest) <==> JobPasses(c, j) && Passes(c, rel, rest.rest);
    hide JobPasses, Passes;
    assert j in q + [j] && forall k :: k in q + [j] <==> k in q || k == j;
  }

  lemma DirAccounts(c: Setup, root: Tree, files: seq<Rel>, dirs: seq<Rel>, q: seq<Job>, rel: Rel, rest: Entries)
    requires rest.Cons? && rest.tree.Dir? && Accounts(c, root, files, dirs, q, rel, rest)
    requires (rel + [rest.name])[0] != "tdata"
    ensures Accounts(c, root, files, dirs, q + [Job(rel + [rest.name], rest.tree)], rel, rest.rest)
  {
    hide FilesAccount, DirsAccount, PassesAccount;
    DirFiles(c, root, files, q, rel, rest);
    DirDirs(root, dirs, q, rel, rest);
    DirPasses(c, root, q, rel, rest);
  }

  /** A file that is the Updater fails the whole plan. */
  lemma UpdaterFails(c: Setup, root: Tree, q: seq<Job>, rel: Rel, rest: Entries)
    requires rest.Cons? && rest.tree.File? && PassesAccount(c, root, q, rel, rest)
    requires (rel + [rest.name])[0] != "tdata" && IsUpdater(c, rel + [rest.name])
    ensures !TreePasses(c, root)
  {
  }

  function Listed(dirs: seq<Rel>, rel: Rel): seq<Rel> { if rel == [] then dirs else dirs + [rel] }

  lemma PopDirs(root: Tree, dirs: seq<Rel>, q: seq<Job>)
    requires q != [] && DirsAccount(root, dirs, q, [], Nil) && q[0].node.Dir?
    ensures DirsAccount(root, Listed(dirs, q[0].rel), q[1..], q[0].rel, q[0].node.entries)
  {
    DirsFront(q);
    assert Dirs([], Nil) == [];
    hide QueueDirs, Dirs;
  }

  lemma PopFiles(c: Setup, root: Tree, files: seq<Rel>, q: seq<Job>)
    requires q != [] && FilesAccount(c, root, files, q, [], Nil) && q[0].node.Dir?
    ensures FilesAccount(c, root, files, q[1..], q[0].rel, q[0].node.entries)
  {
    FilesFront(c, q);
    assert Files(c, [], Nil) == [];
    hide QueueFiles, Files;
  }

  /** The next directory of the queue is read; one that does not open fails the whole plan. */
  lemma PopAccounts(c: Setup, root: Tree, files: seq<Rel>, dirs: seq<Rel>, q: seq<Job>)
    requires q != [] && Accounts(c, root, files, dirs, q, [], Nil)
    ensures !Opens(q[0].node) ==> !TreePasses(c, root)
    ensures Opens(q[0].node) ==>
              Accounts(c, root, files, Listed(dirs, q[0].rel), q[1..], q[0].rel, q[0].node.entries)
  {
    PassesFront(c, q);
    if Opens(q[0].node) {
      PopDirs(root, dirs, q);
      PopFiles(c, root, files, q);
    }
    hide FilesAccount, DirsAccount, QueuePasses;
  }

  lemma StartAccounts(c: Setup, root: Tree)
    ensures Accounts(c, root, [], [], [Job([], root)], [], Nil)
  {
    var q := [Job([], root)];
    assert q[..0] == [] && q[0] in q;
    assert QueuePasses(c, q) <==> JobPasses(c, q[0]);
    assert Passes(c, [], Nil) && Files(c, [], Nil) == [] && Dirs([], Nil) == [];
    var none: seq<Rel> := [];
    assert multiset(none) == multiset{};
    assert QueueFiles(c, q) == multiset{} + JobFiles(c, q[0]) && QueueDirs(q) == multiset{} + JobDirs(q[0]);
    assert FilesAccount(c, root, none, q, [], Nil);
    assert DirsAccount(root, none, q, [], Nil);
    assert PassesAccount(c, root, q, [], Nil);
  }

  /** A directory read to its end leaves nothing. */
  lemma EndAccounts(c: Setup, root: Tree, files: seq<Rel>, dirs: seq<Rel>, q: seq<Job>, rel: Rel)
    requires Accounts(c, root, files, dirs, q, rel, Nil)
    ensures Accounts(c, root, files, dirs, q, [], Nil)
  {
    hide TreeFiles, TreeDirs, TreePasses, QueueFiles, QueueDirs, QueuePasses;
    assert Files(c, rel, Nil) == Files(c, [], Nil) && Dirs(rel, Nil) == Dirs([], Nil);
  }

  /** With an empty queue the plan is that of the tree. */
  lemma AllAccounted(c: Setup, root: Tree, files: seq<Rel>, dirs: seq<Rel>)
    requires Accounts(c, root, files, dirs, [], [], Nil)
    ensures multiset(files) == multiset(TreeFiles(c, root)) && multiset(dirs) == multiset(TreeDirs(root))
    ensures TreePasses(c, root)
  {
    hide TreeFiles, TreeDirs, TreePasses;
    assert Files(c, [], Nil) == [] && Dirs([], Nil) == [] && Passes(c, [], Nil);
    assert QueueFiles(c, []) == multiset{} && QueueDirs([]) == multiset{} && QueuePasses(c, []);
  }

  // ---------- names along the scan ----------

  function Parent(rel: Rel): Rel
    requires rel != []
  {
    rel[..|rel| - 1]
  }

  /** Every directory is listed after the one it is in. */
  ghost predicate ParentsFirst(dirs: seq<Rel>) {
    forall i :: 0 <= i < |dirs| ==> dirs[i] != [] && (|dirs[i]| == 1 || Parent(dirs[i]) in dirs[..i])
  }

  ghost predicate ParentListed(dirs: seq<Rel>, rel: Rel) { rel == [] || |rel| == 1 || Parent(rel) in dirs }

  /** The queue holds directories with plain names, whose parents are listed. */
  ghost predicate QueueFits(dirs: seq<Rel>, q: seq<Job>) {
    forall j :: j in q ==> PlainNames(j.rel) && ParentListed(dirs, j.rel) && (j.node.Dir? ==> WellNamed(j.node.entries))
  }

  ghost predicate PathsFit(c: Setup, paths: seq<string>, q: seq<Job>) {
    |paths| == |q| && forall i :: 0 <= i < |q| ==> paths[i] == Path(c, q[i].rel)
  }

  /** The planned copies are those of the files, in the same order. */
  ghost predicate CopiesFit(c: Setup, from: seq<string>, to: seq<string>, files: seq<Rel>) {
    && |from| == |to| == |files|
    && forall i :: 0 <= i < |files| ==> files[i] != [] && from[i] == Path(c, files[i]) && to[i] == Target(c, files[i])
  }

  ghost predicate ForcedFit(c: Setup, forcedirs: seq<string>, dirs: seq<Rel>) {
    && |forcedirs| == |dirs|
    && forall i :: 0 <= i < |dirs| ==> dirs[i] != [] && PlainNames(dirs[i]) && forcedirs[i] == Forced(c, dirs[i])
  }

  lemma ListNext(dirs: seq<Rel>, rel: Rel)
    requires ParentsFirst(dirs) && ParentListed(dirs, rel)
    ensures ParentsFirst(Listed(dirs, rel))
  {
    var u := Listed(dirs, rel);
    forall i | 0 <= i < |u|
      ensures u[i] != [] && (|u[i]| == 1 || Parent(u[i]) in u[..i])
    {
      assert i < |dirs| ==> u[..i] == dirs[..i];
      assert u[..|dirs|] == dirs;
    }
  }

  lemma QueueKeeps(dirs: seq<Rel>, q: seq<Job>, rel: Rel)
    requires QueueFits(dirs, q)
    ensures QueueFits(Listed(dirs, rel), q)
  {
    var u := Listed(dirs, rel);
    forall j | j in q
      ensures ParentListed(u, j.rel)
    {
      assert ParentListed(dirs, j.rel);
    }
  }

  lemma RenderLong(rel: Rel)
    requires rel != [] && PlainNames(rel)
    ensures |Render(rel)| >= 2
  {
  }

  // ---------- the scan, as a loop ----------

  /** The deques of the scan; jobs, files and made are the names behind dirs, from and forcedirs. */
  datatype Scan = Scan(
    dirs: seq<string>, jobs: seq<Job>, from: seq<string>, to: seq<string>, files: seq<Rel>,
    forcedirs: seq<string>, made: seq<Rel>)

  ghost predicate Fits(c: Setup, s: Scan) {
    && PathsFit(c, s.dirs, s.jobs) && QueueFits(s.made, s.jobs)
    && CopiesFit(c, s.from, s.to, s.files) && ForcedFit(c, s.forcedirs, s.made) && ParentsFirst(s.made)
  }

  ghost predicate ScanAccounts(c: Setup, root: Tree, s: Scan, rel: Rel, rest: Entries) {
    Accounts(c, root, s.files, s.made, s.jobs, rel, rest)
  }

  function AddDir(s: Scan, path: string, x: Rel, t: Tree): Scan {
    s.(dirs := s.dirs + [path], jobs := s.jobs + [Job(x, t)])
  }

  function AddFile(s: Scan, path: string, target: string, x: Rel): Scan {
    s.(from := s.from + [path], to := s.to + [target], files := s.files + [x])
  }

  lemma AddDirFits(c: Setup, s: Scan, rel: Rel, n: Name, t: Tree)
    requires Fits(c, s) && PlainNames(rel) && PlainName(n) && (rel == [] || rel in s.made)
          && (t.Dir? ==> WellNamed(t.entries))
    ensures Fits(c, AddDir(s, Path(c, rel + [n]), rel + [n], t))
    ensures QueueSize(AddDir(s, Path(c, rel + [n]), rel + [n], t).jobs) == QueueSize(s.jobs) + Size(t)
  {
    var x := rel + [n];
    var u := AddDir(s, Path(c, x), x, t);
    assert Parent(x) == rel && u.jobs[..|s.jobs|] == s.jobs && PlainNames(x);
    hide Path, WellNamed, PlainNames, CopiesFit, ForcedFit, ParentsFirst;
  }

  lemma AddFileFits(c: Setup, s: Scan, x: Rel)
    requires Fits(c, s) && x != []
    ensures Fits(c, AddFile(s, Path(c, x), Target(c, x), x))
  {
    hide Path, Target;
  }

  /** The body of the readdir loop: the paths of the entry, and whether the update may go on. */
  method ReadEntry(c: Setup, dir: string, rel: Rel, n: Name, t: Tree, s: Scan) returns (ok: bool, u: Scan)
    requires dir == Path(c, rel) && PlainNames(rel) && PlainName(n)
    ensures ok <==> !((rel + [n])[0] != "tdata" && t.File? && IsUpdater(c, rel + [n]))
    ensures var x := rel + [n];
            ok ==> u == if x[0] == "tdata" || t.Broken? || (t.File? && IsMarker(c, x)) then s
                        else if t.Dir? then AddDir(s, Path(c, x), x, t)
                        else AddFile(s, Path(c, x), Target(c, x), x)
  {
    var fname := dir + "/" + n;
    var x := rel + [n];
    assert fname == Path(c, x) by { assert x[..|rel|] == rel; }
    TdataIsFirst(c, x);
    ReadyIsMarker(c, x);
    if IsTdata(c, fname) { return true, s; }
    match t
    case Broken => return true, s;
    case Dir(_, _) => return true, AddDir(s, fname, x, t);
    case File =>
      var below := fname[|UpdDir(c)| + 1..];
      assert below == Below(x) by { RenderLong(x); }
      hide Below, Path;
      var tofname := c.exePath + below;
      if Equal(tofname, c.updaterName) { return false, s; }
      if (Equal(tofname, c.exePath + "LuxuryGram") || (!c.writeProtected && Equal(tofname, c.exePath + "Telegram")))
         && tofname != c.exePath + c.exeName {
        tofname := c.exePath + c.exeName;
      }
      if fname == ReadyFilePath(c) { return true, s; }
      return true, AddFile(s, fname, tofname, x);
  }

  lemma EntryAccounts(c: Setup, root: Tree, s: Scan, rel: Rel, rest: Entries)
    requires rest.Cons? && ScanAccounts(c, root, s, rel, rest)
    ensures var x, t := rel + [rest.name], rest.tree;
            if x[0] != "tdata" && t.File? && IsUpdater(c, x) then !TreePasses(c, root)
            else if x[0] == "tdata" || t.Broken? || (t.File?
                && IsMarker(c, x)) then ScanAccounts(c, root, s, rel, rest.rest)
            else if t.Dir? then ScanAccounts(c, root, AddDir(s, Path(c, x), x, t), rel, rest.rest)
            else ScanAccounts(c, root, AddFile(s, Path(c, x), Target(c, x), x), rel, rest.rest)
  {
    var x, t := rel + [rest.name], rest.tree;
    hide FilesAccount, DirsAccount, PassesAccount, TreePasses, IsUpdater, IsMarker;
    if x[0] != "tdata" && t.File? && IsUpdater(c, x) {
      UpdaterFails(c, root, s.jobs, rel, rest);
    } else if x[0] == "tdata" || t.Broken? || (t.File? && IsMarker(c, x)) {
      SkipAccounts(c, root, s.files, s.made, s.jobs, rel, rest);
    } else if t.Dir? {
      DirAccounts(c, root, s.files, s.made, s.jobs, rel, rest);
    } else {
      FileAccounts(c, root, s.files, s.made, s.jobs, rel, rest);
    }
  }

  /** The readdir loop. */
  method ReadDir(c: Setup, dir: string, rel: Rel, es: Entries, s: Scan, ghost root: Tree) returns (ok: bool, u: Scan)
    requires dir == Path(c, rel) && PlainNames(rel) && WellNamed(es) && (rel == [] || rel in s.made)
    requires Fits(c, s) && ScanAccounts(c, root, s, rel, es)
    ensures ok ==> Fits(c, u) && ScanAccounts(c, root, u, [], Nil)
    ensures ok ==> QueueSize(u.jobs) <= QueueSize(s.jobs) + EntriesSize(es)
    ensures !ok ==> !TreePasses(c, root)
  {
    hide Path, Fits, ScanAccounts, TreePasses, IsUpdater, IsMarker, Target, QueueSize, AddDir, AddFile;
    u := s;
    var rest := es;
    while rest.Cons?
      invariant WellNamed(rest) && Fits(c, u) && ScanAccounts(c, root, u, rel, rest) && u.made == s.made
      invariant QueueSize(u.jobs) + EntriesSize(rest) <= QueueSize(s.jobs) + EntriesSize(es)
      decreases rest
    {
      var x := rel + [rest.name];
      EntryAccounts(c, root, u, rel, rest);
      AddDirFits(c, u, rel, rest.name, rest.tree);
      AddFileFits(c, u, x);
      AddsKeepMade(c, u, x, rest.tree);
      ok, u := ReadEntry(c, dir, rel, rest.name, rest.tree, u);
      if !ok { return; }
      rest := rest.rest;
    }
    ok := true;
    ScanEnds(c, root, u, rel);
  }

  lemma AddsKeepMade(c: Setup, s: Scan, x: Rel, t: Tree)
    requires x != []
    ensures AddDir(s, Path(c, x), x, t).made == s.made
    ensures AddFile(s, Path(c, x), Target(c, x), x).made == s.made
    ensures AddFile(s, Path(c, x), Target(c, x), x).jobs == s.jobs
  {
  }

  lemma ScanEnds(c: Setup, root: Tree, s: Scan, rel: Rel)
    requires ScanAccounts(c, root, s, rel, Nil)
    ensures ScanAccounts(c, root, s, [], Nil)
  {
    EndAccounts(c, root, s.files, s.made, s.jobs, rel);
  }

  /** The front directory is taken off the queue and listed. */
  function Pop(c: Setup, s: Scan): Scan
    requires s.jobs != [] && s.dirs != []
  {
    var rel := s.jobs[0].rel;
    s.(dirs := s.dirs[1..], jobs := s.jobs[1..], made := Listed(s.made, rel),
       forcedirs := if rel == [] then s.forcedirs else s.forcedirs + [Forced(c, rel)])
  }

  lemma PopPaths(c: Setup, s: Scan)
    requires PathsFit(c, s.dirs, s.jobs) && s.jobs != []
    ensures s.dirs != [] && s.dirs[0] == Path(c, s.jobs[0].rel) && PathsFit(c, s.dirs[1..], s.jobs[1..])
  {
    hide Path;
  }

  lemma PopForced(c: Setup, s: Scan)
    requires ForcedFit(c, s.forcedirs, s.made) && s.jobs != [] && s.dirs != [] && PlainNames(s.jobs[0].rel)
    ensures ForcedFit(c, Pop(c, s).forcedirs, Pop(c, s).made)
  {
    hide Forced, PlainNames;
  }

  lemma PopQueue(s: Scan)
    requires QueueFits(s.made, s.jobs) && s.jobs != []
    ensures QueueFits(Listed(s.made, s.jobs[0].rel), s.jobs[1..])
  {
    assert forall k :: k in s.jobs[1..] ==> k in s.jobs;
    hide PlainNames, WellNamed;
    QueueKeeps(s.made, s.jobs[1..], s.jobs[0].rel);
  }

  lemma PopFits(c: Setup, s: Scan)
    requires Fits(c, s) && s.jobs != []
    ensures s.dirs != [] && Fits(c, Pop(c, s))
    ensures var j := s.jobs[0];
            && s.dirs[0] == Path(c, j.rel) && PlainNames(j.rel) && (j.rel == [] || j.rel in Pop(c, s).made)
            && (j.node.Dir? ==> WellNamed(j.node.entries))
    ensures QueueSize(Pop(c, s).jobs) + Size(s.jobs[0].node) == QueueSize(s.jobs)
  {
    var j := s.jobs[0];
    assert PlainNames(j.rel) && ParentListed(s.made, j.rel) && (j.node.Dir? ==> WellNamed(j.node.entries)) by {
      assert j in s.jobs;
    }
    PopPaths(c, s);
    PopQueue(s);
    PopForced(c, s);
    ListNext(s.made, j.rel);
    QueueSizeFront(s.jobs);
    hide Path, Forced, WellNamed, ParentsFirst, QueueSize, PathsFit, QueueFits, ForcedFit, CopiesFit, PlainNames;
  }

  lemma PopScan(c: Setup, root: Tree, s: Scan)
    requires s.jobs != [] && s.dirs != [] && ScanAccounts(c, root, s, [], Nil)
    ensures !Opens(s.jobs[0].node) ==> !TreePasses(c, root)
    ensures Opens(s.jobs[0].node) ==> ScanAccounts(c, root, Pop(c, s), s.jobs[0].rel, s.jobs[0].node.entries)
  {
    PopAccounts(c, root, s.files, s.made, s.jobs);
    hide FilesAccount, DirsAccount, PassesAccount;
  }

  lemma ScanStarts(c: Setup, root: Tree)
    requires root.Dir? ==> WellNamed(root.entries)
    ensures var s := Scan([UpdDir(c)], [Job([], root)], [], [], [], [], []);
            Fits(c, s) && ScanAccounts(c, root, s, [], Nil)
  {
    assert UpdDir(c) + "" == UpdDir(c);
    StartAccounts(c, root);
    hide Accounts;
  }

  lemma OpenSize(t: Tree)
    ensures Opens(t) ==> t.Dir? && Size(t) > EntriesSize(t.entries)
  {
  }

  /**
    The do loop of update: it passes exactly if every directory outside tdata opens and no file there is the Updater;
    the plan then holds each file once and each directory once, after the one it is in.
   */
  method ScanTree(c: Setup, root: Tree) returns (ok: bool, s: Scan)
    requires root.Dir? ==> WellNamed(root.entries)
    ensures ok <==> TreePasses(c, root)
    ensures ok ==>
              && Fits(c, s)
              && multiset(s.files) == multiset(TreeFiles(c, root)) && multiset(s.made) == multiset(TreeDirs(root))
  {
    s := Scan([UpdDir(c)], [Job([], root)], [], [], [], [], []);
    ScanStarts(c, root);
    hide *;
    while s.jobs != []
      invariant Fits(c, s) && ScanAccounts(c, root, s, [], Nil)
      decreases QueueSize(s.jobs)
    {
      PopFits(c, s);
      PopScan(c, root, s);
      var dir, job := s.dirs[0], s.jobs[0];
      s := PopFront(c, s);
      OpenSize(job.node);
      if !Opens(job.node) { return false, s; }
      ok, s := ReadDir(c, dir, job.rel, job.node.entries, s, root);
      if !ok { return; }
    }
    ok := true;
    EndsWell(c, root, s);
  }

  lemma EndsWell(c: Setup, root: Tree, s: Scan)
    requires ScanAccounts(c, root, s, [], Nil) && s.jobs == []
    ensures multiset(s.files) == multiset(TreeFiles(c, root)) && multiset(s.made) == multiset(TreeDirs(root))
          && TreePasses(c, root)
  {
    AllAccounted(c, root, s.files, s.made);
  }

  /** pop_front, and the directory to force for all but the update folder itself. */
  method PopFront(c: Setup, s: Scan) returns (u: Scan)
    requires s.jobs != [] && s.dirs != [] && s.dirs[0] == Path(c, s.jobs[0].rel) && PlainNames(s.jobs[0].rel)
    ensures u == Pop(c, s)
  {
    var dir, rel := s.dirs[0], s.jobs[0].rel;
    u := s.(dirs := s.dirs[1..], jobs := s.jobs[1..]);
    var n := |UpdDir(c)| + 1;
    assert rel != [] ==> |dir| > n by { if rel != [] { RenderLong(rel); } }
    if |dir| > n {
      var toDir := c.exePath + (dir[n..] + "/");
      assert toDir == Forced(c, rel) by { assert dir[n..] == Below(rel); }
      u := u.(forcedirs := u.forcedirs + [toDir], made := u.made + [rel]);
    }
  }

  lemma {:induction false} CountDistinct(xs: seq<Rel>, x: Rel)
    requires Distinct(xs)
    ensures multiset(xs)[x] == if x in xs then 1 else 0
  {
    if |xs| > 0 {
      var n := |xs| - 1;
      CountDistinct(xs[..n], x);
      assert xs == xs[..n] + [xs[n]];
    }
  }

  lemma SameDistinct(xs: seq<Rel>, ys: seq<Rel>)
    requires multiset(xs) == multiset(ys) && Distinct(ys)
    ensures Distinct(xs) && forall x :: x in xs <==> x in ys
  {
    forall x ensures x in xs <==> x in ys
        { assert x in xs <==> x in multiset(xs); assert x in ys <==> x in multiset(ys); }
    forall i, j | 0 <= i < j < |xs|
      ensures xs[i] != xs[j]
    {
      CountDistinct(ys, xs[i]);
      assert xs == xs[..j] + [xs[j]] + xs[j + 1..];
      assert multiset(xs) == multiset(xs[..j]) + multiset{xs[j]} + multiset(xs[j + 1..]);
      assert xs[i] in multiset(xs[..j]);
    }
  }

  lemma {:induction false} DirsDistinct(rel: Rel, es: Entries)
    requires WellNamed(es)
    ensures Distinct(Dirs(rel, es))
    decreases es
  {
    match es
    case Nil =>
    case Cons(n, t, rest) =>
      var y := rel + [n];
      DirsDistinct(rel, rest);
      if t.Dir? && y[0] != "tdata" {
        DirsDistinct(y, t.entries);
        forall x | x in Dirs(y, t.entries) ensures x !in [y] { DirsAre(y, t.entries, x); }
        DistinctConcat([y], Dirs(y, t.entries));
        var first := [y] + Dirs(y, t.entries);
        forall x | x in first
          ensures x !in Dirs(rel, rest)
        {
          assert y <= x by { DirsAre(y, t.entries, x); }
          DirsAre(rel, rest, x);
          assert x[|rel|..][0] == n;
          AtNames(rest, x[|rel|..]);
        }
        DistinctConcat(first, Dirs(rel, rest));
      } else {
        assert Dirs(rel, es) == [] + Dirs(rel, rest) == Dirs(rel, rest);
      }
  }

  /**
    The plan of a scan that passed is exact: it holds each regular file outside tdata but the ready marker once, with
    its destination, and each directory outside tdata once, after the one it is in.
   */
  lemma PlanIsExact(c: Setup, root: Tree, s: Scan)
    requires root.Dir? && WellNamed(root.entries) && Fits(c, s)
    requires multiset(s.files) == multiset(TreeFiles(c, root)) && multiset(s.made) == multiset(TreeDirs(root))
    ensures Distinct(s.files) && Distinct(s.made)
    ensures forall x :: x in s.files <==>
              x != [] && At(root.entries, x) == File && x[0] != "tdata" && !IsMarker(c, x)
    ensures forall x :: x in s.made <==> x != [] && At(root.entries, x).Dir? && x[0] != "tdata"
    ensures CopiesFit(c, s.from, s.to, s.files) && ForcedFit(c, s.forcedirs, s.made) && ParentsFirst(s.made)
  {
    FilesDistinct(c, [], root.entries);
    DirsDistinct([], root.entries);
    SameDistinct(s.files, TreeFiles(c, root));
    SameDistinct(s.made, TreeDirs(root));
    forall x: Rel
      ensures x in Files(c, [], root.entries)
              <==> x != [] && At(root.entries, x) == File && x[0] != "tdata" && !IsMarker(c, x)
      ensures x in Dirs([], root.entries) <==> x != [] && At(root.entries, x).Dir? && x[0] != "tdata"
    {
      assert x[0..] == x;
      FilesAre(c, [], root.entries, x);
      DirsAre([], root.entries, x);
    }
  }

  lemma {:induction false} LowerConcat(a: string, b: string)
    ensures Lower(a + b) == Lower(a) + Lower(b)
  {
    if |b| == 0 {
      assert a + b == a;
    } else {
      var n := |b| - 1;
      LowerConcat(a, b[..n]);
      assert (a + b)[..|a| + n] == a + b[..n] && (a + b)[|a| + n] == b[n];
    }
  }

  /** A file that is copied: a regular file outside tdata, but not the marker. */
  ghost predicate Planned(c: Setup, root: Tree, x: Rel) {
    root.Dir? && x != [] && At(root.entries, x) == File && x[0] != "tdata" && !IsMarker(c, x)
  }

  /** A common start does not matter. */
  lemma EqualAfter(start: string, a: string, b: string)
    ensures Equal(start + a, start + b) <==> Equal(a, b)
  {
    LowerConcat(start, a);
    LowerConcat(start, b);
    assert Lower(a) == (Lower(start) + Lower(a))[|Lower(start)|..];
    assert Lower(b) == (Lower(start) + Lower(b))[|Lower(start)|..];
  }

  /** The file has a name of the binary: one of those that are changed, letter case apart, or the running one's own. */
  predicate IsBinary(c: Setup, rel: Rel)
    requires rel != []
  {
    Equal(Below(rel), "LuxuryGram") || (!c.writeProtected && Equal(Below(rel), "Telegram")) || Below(rel) == c.exeName
  }

  /** Exactly these files take the place of the running binary; the others keep their names. */
  lemma BinaryTarget(c: Setup, rel: Rel)
    requires rel != []
    ensures Target(c, rel) == c.exePath + c.exeName <==> IsBinary(c, rel)
    ensures !IsBinary(c, rel) ==> Target(c, rel) == c.exePath + Below(rel)
  {
    EqualAfter(c.exePath, Below(rel), "LuxuryGram");
    EqualAfter(c.exePath, Below(rel), "Telegram");
    var name := c.exePath + Below(rel);
    assert Below(rel) == name[|c.exePath|..] && c.exeName == (c.exePath + c.exeName)[|c.exePath|..];
    hide Below, Equal;
  }

  lemma BelowInjective(x: Rel, y: Rel)
    requires x != [] && y != [] && PlainNames(x) && PlainNames(y) && Below(x) == Below(y)
    ensures x == y
  {
    RenderStarts(x);
    RenderStarts(y);
    assert Render(x) == "/" + Below(x) && Render(y) == "/" + Below(y);
    RenderInjective(x, y);
  }

  /** Two files of a tree have the same destination exactly if both have names of the binary. */
  lemma TargetsMeet(c: Setup, x: Rel, y: Rel)
    requires x != y && x != [] && y != [] && PlainNames(x) && PlainNames(y)
    ensures Target(c, x) == Target(c, y) <==> IsBinary(c, x) && IsBinary(c, y)
  {
    BinaryTarget(c, x);
    BinaryTarget(c, y);
    if Below(x) == Below(y) { BelowInjective(x, y); }
    var a, b := c.exePath + Below(x), c.exePath + Below(y);
    assert a[|c.exePath|..] == Below(x) && b[|c.exePath|..] == Below(y);
    hide Target, IsBinary, Below;
  }

  lemma {:induction false} AtPlain(es: Entries, names: Rel)
    requires WellNamed(es) && At(es, names) == File
    ensures names != [] && PlainNames(names)
    decreases es
  {
    match es
    case Nil =>
    case Cons(n, t, rest) =>
      if n != names[0] {
        AtPlain(rest, names);
      } else if |names| > 1 {
        AtPlain(t.entries, names[1..]);
        assert names == [n] + names[1..];
      }
  }

  lemma DestinationsMeet(c: Setup, from: seq<string>, to: seq<string>, files: seq<Rel>)
    requires CopiesFit(c, from, to, files) && Distinct(files) && forall i :: 0 <= i < |files| ==> PlainNames(files[i])
    ensures forall i, j :: 0 <= i < j < |to| ==> (to[i] == to[j] <==> IsBinary(c, files[i]) && IsBinary(c, files[j]))
  {
    forall i, j | 0 <= i < j < |files|
      ensures to[i] == to[j] <==> IsBinary(c, files[i]) && IsBinary(c, files[j])
    {
      TargetsMeet(c, files[i], files[j]);
    }
  }

  lemma PlannedAre(c: Setup, root: Tree, s: Scan)
    requires root.Dir? && WellNamed(root.entries) && Fits(c, s)
    requires multiset(s.files) == multiset(TreeFiles(c, root)) && multiset(s.made) == multiset(TreeDirs(root))
    ensures Distinct(s.files) && forall x :: x in s.files <==> Planned(c, root, x)
    ensures forall i :: 0 <= i < |s.files| ==> PlainNames(s.files[i])
  {
    PlanIsExact(c, root, s);
    assert forall x :: x in s.files <==> Planned(c, root, x);
    hide PlainNames, TreeFiles, TreeDirs, WellNamed, Fits;
    forall i | 0 <= i < |s.files| ensures PlainNames(s.files[i]) {
      assert s.files[i] in s.files;
      AtPlain(root.entries, s.files[i]);
    }
  }

  /** Two places of a list meet exactly if both hold the binary: none do exactly if the binary is held once. */
  lemma DistinctUnlessBinary(c: Setup, to: seq<string>, files: seq<Rel>)
    requires |to| == |files| && Distinct(files) && [] !in files
    requires forall i, j :: 0 <= i < j < |to| ==> (to[i] == to[j] <==> IsBinary(c, files[i]) && IsBinary(c, files[j]))
    ensures (forall i, j :: 0 <= i < j < |to| ==> to[i] != to[j])
            <==> forall x, y :: x in files && y in files && IsBinary(c, x) && IsBinary(c, y) ==> x == y
  {
    hide IsBinary;
    forall i, j | 0 <= i < j < |to| && to[i] == to[j]
      ensures files[i] in files && files[j] in files && files[i] != files[j]
    {
    }
    forall x, y | x in files && y in files && x != y && IsBinary(c, x) && IsBinary(c, y)
      ensures exists i, j :: 0 <= i < j < |to| && to[i] == to[j]
    {
      var k, l :| 0 <= k < |files| && files[k] == x && 0 <= l < |files| && files[l] == y;
      var i, j := if k < l then k else l, if k < l then l else k;
      assert to[i] == to[j];
    }
  }

  /**
    The destinations of the plan of a scan that passed are distinct exactly if at most one regular file of the tree,
    outside tdata and but for the marker, has a name of the binary.
   */
  lemma DestinationsDistinct(c: Setup, root: Tree, s: Scan)
    requires root.Dir? && WellNamed(root.entries) && Fits(c, s)
    requires multiset(s.files) == multiset(TreeFiles(c, root)) && multiset(s.made) == multiset(TreeDirs(root))
    ensures (forall i, j :: 0 <= i < j < |s.to| ==> s.to[i] != s.to[j])
            <==> forall x, y ::
                   Planned(c, root, x) && Planned(c, root, y) && IsBinary(c, x) && IsBinary(c, y) ==> x == y
  {
    PlannedAre(c, root, s);
    hide IsBinary, Planned, TreeFiles, TreeDirs, WellNamed;
    DestinationsMeet(c, s.from, s.to, s.files);
    assert |s.to| == |s.files|;
    hide Fits;
    DistinctUnlessBinary(c, s.to, s.files);
  }

  /** Two files of a tree can share a destination: both names of the binary take the running one's. */
  lemma TargetsMayMeet(c: Setup)
    requires c.exeName == "app" && !c.writeProtected && c.exePath == "/opt/"
    ensures Target(c, ["LuxuryGram"]) == Target(c, ["Telegram"]) == "/opt/app"
  {
    RenderFront("LuxuryGram", []);
    RenderFront("Telegram", []);
    assert ["LuxuryGram"] + [] == ["LuxuryGram"] && ["Telegram"] + [] == ["Telegram"];
    assert Render(["LuxuryGram"]) == "/LuxuryGram" && Render(["Telegram"]) == "/Telegram";
    assert Below(["LuxuryGram"]) == "LuxuryGram" && Below(["Telegram"]) == "Telegram";
  }

  // ---------- making a path ----------

  datatype Found = Missing | OldFile | OldDir

  /**
    What the environment answers: whether a directory is there or can be made, and for the i-th file what is at its
    destination, whether that can be removed, and whether its k-th copy succeeds.
   */
  datatype World = World(makes: string -> bool, found: nat -> Found, removes: nat -> bool, copies: (nat, nat) -> bool)

  /** The places where mkpath cuts: slashes that end a name. */
  predicate IsCut(path: string, i: nat)
    requires i < |path|
  {
    path[i] == '/' && i > 0 && path[i - 1] != '/'
  }

  /** The prefixes that end at a cut before n. */
  function Cuts(path: string, n: nat): seq<string>
    requires n <= |path|
  {
    if n == 0 then [] else Cuts(path, n - 1) + if IsCut(path, n - 1) then [path[..n - 1]] else []
  }

  /** The directories mkpath makes, from the outermost on. */
  function Wanted(path: string): seq<string> { Cuts(path, |path|) + [path] }

  predicate AllMade(w: World, paths: seq<string>) { forall i :: 0 <= i < |paths| ==> w.makes(paths[i]) }

  /** The directories tried: up to the first that cannot be made. */
  function Tried(w: World, paths: seq<string>): seq<string> {
    if |paths| == 0 then []
    else if AllMade(w, paths[..|paths| - 1]) then paths
    else Tried(w, paths[..|paths| - 1])
  }

  lemma {:induction false} CutsAre(path: string, n: nat, p: string)
    requires n <= |path|
    ensures p in Cuts(path, n) <==> |p| < n && p == path[..|p|] && IsCut(path, |p|)
  {
    if n > 0 { CutsAre(path, n - 1, p); }
  }

  /** What mkpath makes: the path, and each part of it that ends before a slash that ends a name. */
  lemma WantedAre(path: string, p: string)
    ensures p in Wanted(path) <==> p == path || (|p| < |path| && p == path[..|p|] && IsCut(path, |p|))
  {
    CutsAre(path, |path|, p);
    hide Cuts;
  }

  /** A directory is wanted after those it is in. */
  lemma {:induction false} CutsLengthen(path: string, n: nat, i: nat, j: nat)
    requires n <= |path| && i < j < |Cuts(path, n)|
    ensures |Cuts(path, n)[i]| < |Cuts(path, n)[j]| < n
  {
    if j < |Cuts(path, n - 1)| {
      CutsLengthen(path, n - 1, i, j);
    } else {
      var init := Cuts(path, n - 1);
      assert init[i] in init;
      CutsAre(path, n - 1, init[i]);
    }
  }

  lemma WantedGrow(path: string, i: nat, j: nat)
    requires i < j < |Wanted(path)|
    ensures |Wanted(path)[i]| < |Wanted(path)[j]|
  {
    var cuts := Cuts(path, |path|);
    if j < |cuts| {
      CutsLengthen(path, |path|, i, j);
    } else {
      assert cuts[i] in cuts;
      CutsAre(path, |path|, cuts[i]);
    }
  }

  /** The C string in a buffer. */
  function CString(buffer: seq<char>): string {
    if |buffer| == 0 || buffer[0] == '\0' then "" else [buffer[0]] + CString(buffer[1..])
  }

  lemma {:induction false} CStringEnds(buffer: seq<char>, n: nat)
    requires n < |buffer| && buffer[n] == '\0' && forall i :: 0 <= i < n ==> buffer[i] != '\0'
    ensures CString(buffer) == buffer[..n]
  {
    if n > 0 {
      CStringEnds(buffer[1..], n - 1);
      assert buffer[..n] == [buffer[0]] + buffer[1..][..n - 1];
    }
  }

  lemma {:induction false} TriedAll(w: World, paths: seq<string>)
    requires AllMade(w, paths)
    ensures Tried(w, paths) == paths
  {
  }

  /** One more directory after those made. */
  lemma TriedNext(w: World, paths: seq<string>, path: string, more: seq<string>)
    requires AllMade(w, paths)
    ensures !w.makes(path) ==> Tried(w, paths + [path] + more) == paths + [path] && !AllMade(w, paths + [path] + more)
    ensures w.makes(path) ==> AllMade(w, paths + [path])
    decreases |more|
  {
    var all := paths + [path] + more;
    if !w.makes(path) {
      assert all[|paths|] == path;
      if |more| > 0 {
        var n := |more| - 1;
        TriedNext(w, paths, path, more[..n]);
        assert all[..|all| - 1] == paths + [path] + more[..n];
      } else {
        assert all[..|all| - 1] == paths && all == paths + [path];
      }
    }
  }

  /** All cuts of a path begin with those before a place. */
  lemma {:induction false} CutsGrow(path: string, n: nat, m: nat)
    requires n <= m <= |path|
    ensures Cuts(path, n) <= Cuts(path, m)
  {
    if n < m { CutsGrow(path, n, m - 1); }
  }

  lemma CutWanted(path: string, w: World, i: nat)
    requires i < |path| && IsCut(path, i) && AllMade(w, Cuts(path, i))
    ensures Cuts(path, i + 1) == Cuts(path, i) + [path[..i]]
    ensures !w.makes(path[..i]) ==> !AllMade(w, Wanted(path)) && Tried(w, Wanted(path)) == Cuts(path, i + 1)
    ensures w.makes(path[..i]) ==> AllMade(w, Cuts(path, i + 1))
  {
    var made, dir, wanted := Cuts(path, i), path[..i], Wanted(path);
    CutsGrow(path, i + 1, |path|);
    assert Cuts(path, i + 1) == made + [dir];
    assert wanted == made + [dir] + wanted[|made| + 1..];
    hide Cuts, Wanted, IsCut;
    TriedNext(w, made, dir, wanted[|made| + 1..]);
  }

  lemma WholeWanted(path: string, w: World)
    requires AllMade(w, Cuts(path, |path|))
    ensures w.makes(path) <==> AllMade(w, Wanted(path))
    ensures Tried(w, Wanted(path)) == Wanted(path)
  {
    var made := Cuts(path, |path|);
    assert made + [path] + [] == Wanted(path);
    hide Cuts;
    TriedNext(w, made, path, []);
    if w.makes(path) { TriedAll(w, made + [path]); }
  }

  /** The directory named by the buffer once a slash is overwritten. */
  lemma BufferCut(buffer: seq<char>, path: string, i: nat)
    requires i < |path| && '\0' !in path && buffer == (path + ['\0'])[i := '\0']
    ensures CString(buffer) == path[..i] && buffer[i := path[i]] == path + ['\0']
  {
    CStringEnds(buffer, i);
  }

  /** mkpath: the buffer is cut at a slash, the directory made, and the slash put back. */
  method MkPath(path: string, w: World) returns (ok: bool, tried: seq<string>)
    requires '\0' !in path
    ensures ok <==> AllMade(w, Wanted(path))
    ensures tried == Tried(w, Wanted(path))
  {
    var copypath := new char[|path| + 1];
    forall i | 0 <= i < |path| { copypath[i] := path[i]; }
    copypath[|path|] := '\0';
    assert copypath[..] == path + ['\0'];
    tried := [];
    assert Cuts(path, 0) == [] && AllMade(w, []);
    hide Wanted, Tried, AllMade, CString;
    var pp, sp := 0, 0;
    while sp < |path|
      invariant 0 <= pp <= sp <= |path| && (forall k :: pp <= k < sp ==> path[k] != '/')
      invariant pp == 0 || path[pp - 1] == '/'
      invariant copypath[..] == path + ['\0']
      invariant tried == Cuts(path, sp) && AllMade(w, tried)
    {
      if path[sp] == '/' {
        if sp != pp {
          copypath[sp] := '\0';
          BufferCut(copypath[..], path, sp);
          CutWanted(path, w, sp);
          var dir := CString(copypath[..]);
          tried := tried + [dir];
          if !w.makes(dir) { return false, tried; }
          copypath[sp] := '/';
        }
        pp := sp + 1;
      }
      sp := sp + 1;
    }
    WholeWanted(path, w);
    tried := tried + [path];
    ok := w.makes(path);
    assert tried == Wanted(path) by { WantedIs(path); }
  }

  lemma WantedIs(path: string)
    ensures Wanted(path) == Cuts(path, |path|) + [path]
  {
  }

  lemma {:induction false} RenderPlain(rel: Rel)
    requires PlainNames(rel)
    ensures '\0' !in Render(rel)
  {
    if rel != [] { RenderPlain(rel[..|rel| - 1]); }
  }

  // ---------- carrying the plan out ----------

  /** What is done outside the update folder. */
  datatype Op = MakeDir(path: string) | Remove(path: string) | Copy(from: string, to: string, done: bool)

  const TRIES := 30

  predicate AllForced(w: World, forcedirs: seq<string>) {
    forall i :: 0 <= i < |forcedirs| ==> forcedirs[i] != "" ==> AllMade(w, Wanted(forcedirs[i]))
  }

  function MakeOps(paths: seq<string>): (ops: seq<Op>)
    ensures |ops| == |paths|
  {
    seq(|paths|, i requires 0 <= i < |paths| => MakeDir(paths[i]))
  }

  /** The operations of the forced directories, all of them made. */
  function ForceOps(forcedirs: seq<string>): seq<Op> {
    if |forcedirs| == 0 then []
    else
      var dir := forcedirs[|forcedirs| - 1];
      ForceOps(forcedirs[..|forcedirs| - 1]) + if dir == "" then [] else MakeOps(Wanted(dir))
  }

  ghost predicate OnlyMakes(log: seq<Op>) { forall op :: op in log ==> op.MakeDir? }

  lemma MakesMore(log: seq<Op>, paths: seq<string>)
    requires OnlyMakes(log)
    ensures OnlyMakes(log + MakeOps(paths))
  {
  }

  lemma ForcedNext(w: World, forcedirs: seq<string>, i: nat)
    requires i < |forcedirs|
    ensures AllForced(w, forcedirs[..i + 1])
            <==> AllForced(w, forcedirs[..i]) && (forcedirs[i] != "" ==> AllMade(w, Wanted(forcedirs[i])))
    ensures AllForced(w, forcedirs) ==> AllForced(w, forcedirs[..i + 1])
    ensures ForceOps(forcedirs[..i + 1])
            == ForceOps(forcedirs[..i]) + if forcedirs[i] == "" then [] else MakeOps(Wanted(forcedirs[i]))
  {
    var next := forcedirs[..i + 1];
    assert next[..i] == forcedirs[..i] && next[i] == forcedirs[i];
    hide AllMade, Wanted, MakeOps;
  }

  method ForceDirs(forcedirs: seq<string>, w: World) returns (ok: bool, log: seq<Op>)
    requires forall i :: 0 <= i < |forcedirs| ==> '\0' !in forcedirs[i]
    ensures ok <==> AllForced(w, forcedirs)
    ensures ok ==> log == ForceOps(forcedirs)
    ensures OnlyMakes(log)
  {
    log := [];
    for i := 0 to |forcedirs|
      invariant AllForced(w, forcedirs[..i]) && log == ForceOps(forcedirs[..i]) && OnlyMakes(log)
    {
      hide Wanted, Tried, AllMade, AllForced, ForceOps, OnlyMakes, MakeOps;
      ForcedNext(w, forcedirs, i);
      var forcedir := forcedirs[i];
      if forcedir != "" {
        var tried;
        ok, tried := MkPath(forcedir, w);
        if ok { TriedAll(w, Wanted(forcedir)); }
        MakesMore(log, tried);
        log := log + MakeOps(tried);
        if !ok { return; }
      }
    }
    assert forcedirs[..|forcedirs|] == forcedirs;
    ok := true;
  }

  /** The number of failed copies before the first that succeeds, at most n. */
  function Failures(w: World, i: nat, n: nat): (k: nat)
    ensures k <= n && (forall j :: 0 <= j < k ==> !w.copies(i, j)) && (k < n ==> w.copies(i, k))
  {
    if n == 0 then 0
    else if Failures(w, i, n - 1) < n - 1 then Failures(w, i, n - 1)
    else if w.copies(i, n - 1) then n - 1 else n
  }

  /** The old file goes, and one of the tries succeeds. */
  predicate CopyWorks(w: World, i: nat) {
    (w.found(i) != Missing ==> w.removes(i)) && exists k :: 0 <= k < TRIES && w.copies(i, k)
  }

  function FailedCopies(from: string, to: string, k: nat): (ops: seq<Op>)
    ensures |ops| == k
  {
    seq(k, _ => Copy(from, to, false))
  }

  /** The operations of a file whose copy works. */
  function FileOps(w: World, i: nat, from: string, to: string): seq<Op> {
    (if w.found(i) != Missing then [Remove(to)] else [])
    + FailedCopies(from, to, Failures(w, i, TRIES)) + [Copy(from, to, true)]
  }

  /** The operations of a file that is given up: the old one did not go, or no try succeeded. */
  function GivenUp(w: World, i: nat, from: string, to: string): (ops: seq<Op>)
    ensures |ops| <= TRIES + 1 && forall op :: op in ops ==> !(op.Copy? && op.done)
  {
    if w.found(i) == Missing then FailedCopies(from, to, TRIES)
    else if w.removes(i) then [Remove(to)] + FailedCopies(from, to, TRIES)
    else [Remove(to)]
  }

  /** Copies that were tried one after the other, up to one that succeeded or to the last try. */
  ghost predicate TriedInTurn(w: World, i: nat, from: string, to: string, tries: seq<Op>) {
    && 0 < |tries| <= TRIES
    && (forall k :: 0 <= k < |tries| ==> tries[k] == Copy(from, to, w.copies(i, k)))
    && (forall k :: 0 <= k < |tries| - 1 ==> !w.copies(i, k))
    && (|tries| == TRIES || w.copies(i, |tries| - 1))
  }

  lemma GoodTries(w: World, i: nat, from: string, to: string)
    requires exists k :: 0 <= k < TRIES && w.copies(i, k)
    ensures TriedInTurn(w, i, from, to, FailedCopies(from, to, Failures(w, i, TRIES)) + [Copy(from, to, true)])
  {
    hide Failures;
    assert Failures(w, i, TRIES) < TRIES;
  }

  lemma BadTries(w: World, i: nat, from: string, to: string)
    requires forall k :: 0 <= k < TRIES ==> !w.copies(i, k)
    ensures TriedInTurn(w, i, from, to, FailedCopies(from, to, TRIES))
  {
  }

  /** What copying one file comes to in the log. */
  ghost predicate CopyTried(w: World, i: nat, from: string, to: string, ops: seq<Op>) {
    var removal := if w.found(i) != Missing then [Remove(to)] else [];
    if w.found(i) != Missing && !w.removes(i) then ops == removal
    else removal <= ops && TriedInTurn(w, i, from, to, ops[|removal|..])
  }

  /**
    What is at the destination is removed first, and nothing is tried when that fails; then copies are tried until one
    succeeds, thirty times at most.
   */
  lemma CopyFileMeans(w: World, i: nat, from: string, to: string)
    ensures CopyTried(w, i, from, to, if CopyWorks(w, i) then FileOps(w, i, from, to) else GivenUp(w, i, from, to))
  {
    hide TriedInTurn, FailedCopies, Failures;
    if CopyWorks(w, i) {
      GoodTries(w, i, from, to);
      var removal := if w.found(i) != Missing then [Remove(to)] else [];
      var tries := FailedCopies(from, to, Failures(w, i, TRIES)) + [Copy(from, to, true)];
      assert FileOps(w, i, from, to) == removal + tries;
    } else if w.found(i) == Missing || w.removes(i) {
      BadTries(w, i, from, to);
      var removal := if w.found(i) != Missing then [Remove(to)] else [];
      assert GivenUp(w, i, from, to) == removal + FailedCopies(from, to, TRIES);
    }
  }

  /** The first of n files whose copy does not work, n without one. */
  function FirstFailure(w: World, n: nat): (k: nat)
    ensures k <= n && (forall i :: 0 <= i < k ==> CopyWorks(w, i)) && (k < n ==> !CopyWorks(w, k))
  {
    if n == 0 then 0
    else if FirstFailure(w, n - 1) < n - 1 then FirstFailure(w, n - 1)
    else if CopyWorks(w, n - 1) then n else n - 1
  }

  function CopyOps(w: World, from: seq<string>, to: seq<string>): seq<Op>
    requires |from| == |to|
  {
    if |from| == 0 then []
    else
      var i := |from| - 1;
      CopyOps(w, from[..i], to[..i]) + FileOps(w, i, from[i], to[i])
  }

  /** The files before the first that cannot be copied, then what was tried of that one. */
  function CopyLog(w: World, from: seq<string>, to: seq<string>): seq<Op>
    requires |from| == |to|
  {
    var k := FirstFailure(w, |from|);
    CopyOps(w, from[..k], to[..k]) + if k < |from| then GivenUp(w, k, from[k], to[k]) else []
  }

  /** The copies of one file: at most as many as there are tries. */
  method CopyFile(i: nat, fname: string, tofname: string, w: World) returns (ok: bool, log: seq<Op>)
    ensures ok <==> CopyWorks(w, i)
    ensures log == if ok then FileOps(w, i, fname, tofname) else GivenUp(w, i, fname, tofname)
  {
    log := [];
    if w.found(i) != Missing {
      log := [Remove(tofname)];
      if !w.removes(i) { return false, log; }
    }
    ghost var before := log;
    var copyTries := 0;
    ok := false;
    while !ok && copyTries < TRIES
      invariant copyTries <= TRIES
      invariant forall k :: 0 <= k < copyTries ==> !w.copies(i, k)
      invariant !ok ==> log == before + FailedCopies(fname, tofname, copyTries)
      invariant ok ==> copyTries < TRIES && w.copies(i, copyTries)
                       && log == before + FailedCopies(fname, tofname, copyTries) + [Copy(fname, tofname, true)]
      decreases !ok, TRIES - copyTries
    {
      if w.copies(i, copyTries) {
        log := log + [Copy(fname, tofname, true)];
        ok := true;
      } else {
        log := log + [Copy(fname, tofname, false)];
        FailOnceMore(fname, tofname, copyTries);
        copyTries := copyTries + 1;
      }
    }
    if ok { assert Failures(w, i, TRIES) == copyTries; }
  }

  lemma FailOnceMore(from: string, to: string, k: nat)
    ensures FailedCopies(from, to, k + 1) == FailedCopies(from, to, k) + [Copy(from, to, false)]
  {
  }

  method CopyFiles(from: seq<string>, to: seq<string>, w: World) returns (ok: bool, log: seq<Op>)
    requires |from| == |to|
    ensures ok <==> forall i :: 0 <= i < |from| ==> CopyWorks(w, i)
    ensures log == CopyLog(w, from, to) && (ok ==> log == CopyOps(w, from, to))
  {
    hide CopyWorks, FileOps, GivenUp, FirstFailure;
    log := [];
    for i := 0 to |from|
      invariant log == CopyOps(w, from[..i], to[..i])
      invariant forall k :: 0 <= k < i ==> CopyWorks(w, k)
    {
      assert from[..i + 1][..i] == from[..i] && to[..i + 1][..i] == to[..i];
      var ops;
      ok, ops := CopyFile(i, from[i], to[i], w);
      log := log + ops;
      if !ok {
        assert FirstFailure(w, |from|) == i;
        return;
      }
    }
    assert from[..|from|] == from && to[..|to|] == to;
    assert FirstFailure(w, |from|) == |from|;
    ok := true;
  }

  /**
    update: nothing is done unless the scan passed; files are touched only when every directory was made; and it
    succeeds exactly if the scan passed, every directory was made, every old file went, and every file was copied in one
    of its tries.
   */
  method Update(c: Setup, root: Tree, w: World) returns (ok: bool, log: seq<Op>, s: Scan)
    requires (root.Dir? ==> WellNamed(root.entries)) && '\0' !in c.exePath
    ensures !TreePasses(c, root) ==> !ok && log == []
    ensures TreePasses(c, root) ==>
              && Fits(c, s) && |s.from| == |s.to|
              && multiset(s.files) == multiset(TreeFiles(c, root)) && multiset(s.made) == multiset(TreeDirs(root))
              && (ok <==> AllForced(w, s.forcedirs) && forall i :: 0 <= i < |s.from| ==> CopyWorks(w, i))
              && (!AllForced(w, s.forcedirs) ==> OnlyMakes(log))
              && (AllForced(w, s.forcedirs) ==> log == ForceOps(s.forcedirs) + CopyLog(w, s.from, s.to))
              && (ok ==> log == ForceOps(s.forcedirs) + CopyOps(w, s.from, s.to))
  {
    log := [];
    ok, s := ScanTree(c, root);
    if !ok { return; }
    ForcedPlain(c, s);
    hide Fits, TreePasses, AllForced, CopyWorks, ForceOps, CopyOps, CopyLog, TreeFiles, TreeDirs, OnlyMakes;
    var makes;
    ok, makes := ForceDirs(s.forcedirs, w);
    if !ok { return false, makes, s; }
    var copies;
    ok, copies := CopyFiles(s.from, s.to, w);
    log := makes + copies;
  }

  lemma ForcedPlain(c: Setup, s: Scan)
    requires Fits(c, s) && '\0' !in c.exePath
    ensures |s.from| == |s.to|
    ensures forall i :: 0 <= i < |s.forcedirs| ==> '\0' !in s.forcedirs[i]
  {
    forall i | 0 <= i < |s.forcedirs|
      ensures '\0' !in s.forcedirs[i]
    {
      assert s.forcedirs[i] == Forced(c, s.made[i]);
      RenderPlain(s.made[i]);
    }
  }

  // ---------- what success means ----------

  /** The files whose copy succeeded, with their destinations, in order. */
  function Copied(log: seq<Op>): seq<(string, string)> {
    if |log| == 0 then []
    else
      var op := log[|log| - 1];
      Copied(log[..|log| - 1]) + if op.Copy? && op.done then [(op.from, op.to)] else []
  }

  lemma {:induction false} CopiedConcat(a: seq<Op>, b: seq<Op>)
    ensures Copied(a + b) == Copied(a) + Copied(b)
  {
    if |b| == 0 {
      assert a + b == a;
    } else {
      var n := |b| - 1;
      CopiedConcat(a, b[..n]);
      assert (a + b)[..|a| + n] == a + b[..n] && (a + b)[|a| + n] == b[n];
    }
  }

  lemma {:induction false} NothingCopied(log: seq<Op>)
    requires forall op :: op in log ==> !(op.Copy? && op.done)
    ensures Copied(log) == []
  {
    if |log| > 0 {
      assert log[|log| - 1] in log;
      NothingCopied(log[..|log| - 1]);
    }
  }

  function Pairs(from: seq<string>, to: seq<string>): (r: seq<(string, string)>)
    requires |from| == |to|
    ensures |r| == |from|
  {
    seq(|from|, i requires 0 <= i < |from| => (from[i], to[i]))
  }

  lemma FileCopiedOnce(w: World, i: nat, from: string, to: string)
    ensures Copied(FileOps(w, i, from, to)) == [(from, to)]
    ensures |FileOps(w, i, from, to)| <= TRIES + 2
  {
    var before := (if w.found(i) != Missing then [Remove(to)] else []) + FailedCopies(from, to, Failures(w, i, TRIES));
    NothingCopied(before);
    CopiedConcat(before, [Copy(from, to, true)]);
    assert [Copy(from, to, true)][..0] == [];
    assert Copied([Copy(from, to, true)]) == Copied([]) + [(from, to)] == [(from, to)];
  }

  lemma {:induction false} AllCopiedOnce(w: World, from: seq<string>, to: seq<string>)
    requires |from| == |to|
    ensures Copied(CopyOps(w, from, to)) == Pairs(from, to)
  {
    if |from| > 0 {
      var i := |from| - 1;
      AllCopiedOnce(w, from[..i], to[..i]);
      FileCopiedOnce(w, i, from[i], to[i]);
      CopiedConcat(CopyOps(w, from[..i], to[..i]), FileOps(w, i, from[i], to[i]));
      assert Pairs(from, to) == Pairs(from[..i], to[..i]) + [(from[i], to[i])];
    }
  }

  lemma {:induction false} ForceOpsMake(forcedirs: seq<string>)
    ensures forall op :: op in ForceOps(forcedirs) ==> op.MakeDir?
  {
    if |forcedirs| > 0 { ForceOpsMake(forcedirs[..|forcedirs| - 1]); }
  }

  /** An update that succeeds has copied each planned file to its destination, once, in the order of the plan. */
  lemma SuccessCopiesAll(w: World, forcedirs: seq<string>, from: seq<string>, to: seq<string>)
    requires |from| == |to|
    ensures Copied(ForceOps(forcedirs) + CopyOps(w, from, to)) == Pairs(from, to)
  {
    ForceOpsMake(forcedirs);
    NothingCopied(ForceOps(forcedirs));
    CopiedConcat(ForceOps(forcedirs), CopyOps(w, from, to));
    AllCopiedOnce(w, from, to);
  }

  /** What is at each destination: the source of the last copy, nothing after a removal or a failed copy. */
  function Installed(log: seq<Op>): map<string, string> {
    if |log| == 0 then map[]
    else
      var before := Installed(log[..|log| - 1]);
      match log[|log| - 1]
      case MakeDir(_) => before
      case Remove(path) => before - {path}
      case Copy(from, to, done) => if done then before[to := from] else before - {to}
  }

  lemma {:induction false} InstalledUntouched(a: seq<Op>, b: seq<Op>, path: string)
    requires forall op :: op in b ==> (op.Remove? ==> op.path != path) && (op.Copy? ==> op.to != path)
    ensures path in Installed(a + b) <==> path in Installed(a)
    ensures path in Installed(a) ==> Installed(a + b)[path] == Installed(a)[path]
  {
    if |b| == 0 {
      assert a + b == a;
    } else {
      var n := |b| - 1;
      assert b[n] in b && forall op :: op in b[..n] ==> op in b;
      InstalledUntouched(a, b[..n], path);
      assert (a + b)[..|a| + n] == a + b[..n] && (a + b)[|a| + n] == b[n];
    }
  }

  /** After success a destination holds the last file that was planned for it. */
  lemma {:induction false} LastFileStays(w: World, makes: seq<Op>, from: seq<string>, to: seq<string>, i: nat)
    requires |from| == |to| && i < |from| && forall j :: i < j < |to| ==> to[j] != to[i]
    ensures var disk := Installed(makes + CopyOps(w, from, to)); to[i] in disk && disk[to[i]] == from[i]
  {
    var n := |from| - 1;
    var before := makes + CopyOps(w, from[..n], to[..n]);
    var ops := FileOps(w, n, from[n], to[n]);
    assert makes + CopyOps(w, from, to) == before + ops;
    if i == n {
      var log := before + ops;
      assert log[|log| - 1] == Copy(from[n], to[n], true);
    } else {
      LastFileStays(w, makes, from[..n], to[..n], i);
      assert forall op :: op in ops ==> (op.Remove? ==> op.path == to[n]) && (op.Copy? ==> op.to == to[n]);
      InstalledUntouched(before, ops, to[i]);
    }
  }
}
