/**
 * `DevTools/Diagrams/generate_class_dependency.py`: collects the classes,
 * interfaces and inheritance relations of the game's C# scripts and writes
 * them as a PlantUML class diagram. The regular-expression scan of each
 * file is not modelled: a file is given by its matches, in order.
 */
module ClassDependency {
  import opened Common
  import opened Sorting
  import opened Diagrams
  import Text

  /** A `CLASS_DECL` match: the class name and, when there is a `:` part, the text of the parent list. */
  datatype ClassMatch = ClassMatch(name: string, parents: Option<string>)

  /** A script as `parse` sees it: its path, its `INTERFACE_DECL` matches and its `CLASS_DECL` matches. */
  datatype SourceFile = SourceFile(path: string, interfaceMatches: seq<string>, classMatches: seq<ClassMatch>)

  // ---------------------------------------------------------------------
  // The parent list
  // ---------------------------------------------------------------------

  /** Stripping never brings in a character the text did not have. */
  lemma StripKeepsOut(s: string, c: char)
    requires c !in s
    ensures c !in Strip(s)
  {
    var t := Text.TrimStart(s, PyWhite);
    Text.TrimStartFacts(s, PyWhite);
    Text.TrimEndFacts(t, PyWhite);
    assert t == s[|s| - |t|..];
  }

  /** Neither end is whitespace: what `strip()` leaves. */
  predicate Stripped(s: string)
  {
    |s| > 0 ==> s[0] !in PyWhite && s[|s| - 1] !in PyWhite
  }

  /** `strip()` leaves a stripped text, and leaves a stripped text alone. */
  lemma StripFacts(s: string)
    ensures Stripped(Strip(s))
    ensures Stripped(s) ==> Strip(s) == s
  {
    Text.TrimFacts(s, PyWhite);
    if Stripped(s) {
      Text.TrimIdentity(s, PyWhite);
    }
  }

  /** `[x.strip() for x in pieces if x.strip()]`. */
  function StripAll(pieces: seq<string>): (r: seq<string>)
    ensures forall k :: 0 <= k < |r| ==> r[k] != "" && Stripped(r[k])
  {
    if |pieces| == 0 then []
    else
      var p := Strip(pieces[0]);
      StripFacts(pieces[0]);
      (if p == "" then [] else [p]) + StripAll(pieces[1..])
  }

  /** A character absent from every piece is absent from every stripped name. */
  lemma {:induction false} StripAllKeepsOut(pieces: seq<string>, c: char)
    requires forall j :: 0 <= j < |pieces| ==> c !in pieces[j]
    ensures forall k :: 0 <= k < |StripAll(pieces)| ==> c !in StripAll(pieces)[k]
  {
    if |pieces| > 0 {
      var rest := pieces[1..];
      StripKeepsOut(pieces[0], c);
      assert forall j :: 0 <= j < |rest| ==> rest[j] == pieces[j + 1];
      StripAllKeepsOut(rest, c);
    }
  }

  /** The parent names of a class's `:` part: split on commas, stripped, empty pieces dropped. */
  function ParentNames(parents: string): (r: seq<string>)
    ensures forall k :: 0 <= k < |r| ==> r[k] != "" && Stripped(r[k]) && ',' !in r[k]
  {
    Text.SplitPiecesFree(parents, ',');
    StripAllKeepsOut(Text.Split(parents, ','), ',');
    StripAll(Text.Split(parents, ','))
  }

  /** Names that are already stripped and non-empty survive `StripAll` unchanged. */
  lemma {:induction false} StripAllKeepsNames(names: seq<string>)
    requires forall k :: 0 <= k < |names| ==> names[k] != "" && Stripped(names[k])
    ensures StripAll(names) == names
  {
    if |names| > 0 {
      var rest := names[1..];
      assert forall k :: 0 <= k < |rest| ==> rest[k] == names[k + 1];
      StripAllKeepsNames(rest);
      StripFacts(names[0]);
      assert names == [names[0]] + rest;
    }
  }

  /** A comma-separated list of stripped, non-empty, comma-free names reads back as those names. */
  lemma {:induction false} ParentNamesOfList(names: seq<string>)
    requires forall k :: 0 <= k < |names| ==> names[k] != "" && Stripped(names[k]) && ',' !in names[k]
    ensures ParentNames(Text.Join(names, ",")) == names
  {
    if |names| == 0 {
      assert Text.Split("", ',') == [""];
      StripFacts("");
    } else {
      Text.SplitJoin(names, ',');
      StripAllKeepsNames(names);
    }
  }

  // ---------------------------------------------------------------------
  // `parse`, as a fold over the files
  // ---------------------------------------------------------------------

  /**
   * The four collections `parse` returns; each `defaultdict(set)` is the
   * set of its (class, parent) pairs.
   */
  datatype ParseState = ParseState(
    classes: map<string, string>,
    interfaces: set<string>,
    bases: set<(string, string)>,
    implements: set<(string, string)>)

  const Empty: ParseState := ParseState(map[], {}, {}, {})

  /** One parent: to `implements` when it is a known interface, to `bases` otherwise. */
  function RouteParent(st: ParseState, cls: string, p: string): ParseState
  {
    if p in st.interfaces then st.(implements := st.implements + {(cls, p)})
    else st.(bases := st.bases + {(cls, p)})
  }

  function RouteParents(st: ParseState, cls: string, ps: seq<string>): ParseState
  {
    if |ps| == 0 then st else RouteParent(RouteParents(st, cls, ps[..|ps| - 1]), cls, ps[|ps| - 1])
  }

  /** One class declaration: its parents are routed, then the class is recorded with the file. */
  function AddClass(st: ParseState, path: string, m: ClassMatch): ParseState
  {
    var routed := if m.parents.Some? then RouteParents(st, m.name, ParentNames(m.parents.value)) else st;
    routed.(classes := routed.classes[m.name := path])
  }

  function AddClasses(st: ParseState, path: string, ms: seq<ClassMatch>): ParseState
  {
    if |ms| == 0 then st else AddClass(AddClasses(st, path, ms[..|ms| - 1]), path, ms[|ms| - 1])
  }

  function AddInterfaces(st: ParseState, names: seq<string>): ParseState
  {
    if |names| == 0 then st
    else
      var before := AddInterfaces(st, names[..|names| - 1]);
      before.(interfaces := before.interfaces + {names[|names| - 1]})
  }

  /** One file: all its interfaces first, then its classes. */
  function ParseFile(st: ParseState, f: SourceFile): ParseState
  {
    AddClasses(AddInterfaces(st, f.interfaceMatches), f.path, f.classMatches)
  }

  /** The files, one after the other, from the state `st`. */
  function ParseFrom(st: ParseState, files: seq<SourceFile>): ParseState
  {
    if |files| == 0 then st else ParseFile(ParseFrom(st, files[..|files| - 1]), files[|files| - 1])
  }

  /** `parse` as written: the files from nothing. */
  function ParseFiles(files: seq<SourceFile>): ParseState
  {
    ParseFrom(Empty, files)
  }

  // ---------------------------------------------------------------------
  // What `parse` computes
  // ---------------------------------------------------------------------

  /** Some match in `ms` declares `c`. */
  predicate DeclaresIn(ms: seq<ClassMatch>, c: string)
  {
    exists k :: 0 <= k < |ms| && ms[k].name == c
  }

  /** The match declares `c` and lists `p` among its parents. */
  predicate Lists(m: ClassMatch, c: string, p: string)
  {
    m.name == c && m.parents.Some? && p in ParentNames(m.parents.value)
  }

  /** Some match in `ms` declares `c` and lists `p` among its parents. */
  predicate ListsIn(ms: seq<ClassMatch>, c: string, p: string)
  {
    |ms| > 0 && (ListsIn(ms[..|ms| - 1], c, p) || Lists(ms[|ms| - 1], c, p))
  }

  /** A class that lists a parent is declared. */
  lemma {:induction false} ListsInDeclares(ms: seq<ClassMatch>, c: string, p: string)
    requires ListsIn(ms, c, p)
    ensures DeclaresIn(ms, c)
  {
    if !Lists(ms[|ms| - 1], c, p) {
      ListsInDeclares(ms[..|ms| - 1], c, p);
      var k :| 0 <= k < |ms| - 1 && ms[..|ms| - 1][k].name == c;
      assert ms[k].name == c;
    }
  }

  /** The interfaces declared in the files. */
  function InterfacesOf(files: seq<SourceFile>): set<string>
  {
    if |files| == 0 then {} else InterfacesOf(files[..|files| - 1]) + Members(files[|files| - 1].interfaceMatches)
  }

  /** Some file declares the class `c`. */
  ghost predicate Declared(files: seq<SourceFile>, c: string)
  {
    exists i :: 0 <= i < |files| && DeclaresIn(files[i].classMatches, c)
  }

  /**
   * File `i` lists `p` as a parent of `c`, and `p` is (`asInterface`) or
   * is not an interface in `known` or declared in that file or an earlier
   * one.
   */
  ghost predicate RoutesAt(known: set<string>, files: seq<SourceFile>, i: int, c: string, p: string, asInterface: bool)
  {
    0 <= i < |files| && ListsIn(files[i].classMatches, c, p) &&
    (p in known + InterfacesOf(files[..i + 1]) <==> asInterface)
  }

  /** File `i` declares `c` and no later file does. */
  ghost predicate LastDeclares(files: seq<SourceFile>, i: int, c: string)
  {
    0 <= i < |files| && DeclaresIn(files[i].classMatches, c) && !Declared(files[i + 1..], c)
  }

  /** Some file lists `p` as a parent of `c` when `p` is already known as an interface. */
  ghost predicate Implemented(known: set<string>, files: seq<SourceFile>, c: string, p: string)
  {
    exists i :: RoutesAt(known, files, i, c, p, true)
  }

  /** Some file lists `p` as a parent of `c` when `p` is not yet known as an interface. */
  ghost predicate Extended(known: set<string>, files: seq<SourceFile>, c: string, p: string)
  {
    exists i :: RoutesAt(known, files, i, c, p, false)
  }

  /** Routing one class's parents only adds that class's pairs, split by the interface set of the moment. */
  lemma {:induction false} RouteParentsFacts(st: ParseState, cls: string, ps: seq<string>)
    ensures var r := RouteParents(st, cls, ps);
      && r.classes == st.classes && r.interfaces == st.interfaces
      && (forall c, p :: (c, p) in r.implements <==> (c, p) in st.implements || (c == cls && p in ps && p in st.interfaces))
      && (forall c, p :: (c, p) in r.bases <==> (c, p) in st.bases || (c == cls && p in ps && p !in st.interfaces))
  {
    if |ps| > 0 {
      var init := ps[..|ps| - 1];
      RouteParentsFacts(st, cls, init);
      assert forall p :: p in ps <==> p in init || p == ps[|ps| - 1];
    }
  }

  /** The class declarations of one file, with the interface set they see fixed. */
  lemma {:induction false} AddClassesFacts(st: ParseState, path: string, ms: seq<ClassMatch>)
    ensures var r := AddClasses(st, path, ms);
      && r.interfaces == st.interfaces
      && (forall c :: c in r.classes <==> c in st.classes || DeclaresIn(ms, c))
      && (forall c :: c in r.classes ==> r.classes[c] == if DeclaresIn(ms, c) then path else st.classes[c])
      && (forall c, p :: (c, p) in r.implements <==>
            (c, p) in st.implements || (p in st.interfaces && ListsIn(ms, c, p)))
      && (forall c, p :: (c, p) in r.bases <==>
            (c, p) in st.bases || (p !in st.interfaces && ListsIn(ms, c, p)))
  {
    if |ms| > 0 {
      var init := ms[..|ms| - 1];
      var last := ms[|ms| - 1];
      AddClassesFacts(st, path, init);
      var mid := AddClasses(st, path, init);
      if last.parents.Some? {
        RouteParentsFacts(mid, last.name, ParentNames(last.parents.value));
      }
      assert forall k :: 0 <= k < |init| ==> init[k] == ms[k];
      forall c ensures DeclaresIn(ms, c) <==> DeclaresIn(init, c) || last.name == c {
        if DeclaresIn(ms, c) && !DeclaresIn(init, c) {
          var k :| 0 <= k < |ms| && ms[k].name == c;
          assert k == |ms| - 1;
        }
      }
    }
  }

  /** What one file adds to the interfaces. */
  lemma {:induction false} AddInterfacesFacts(st: ParseState, names: seq<string>)
    ensures AddInterfaces(st, names) == st.(interfaces := st.interfaces + Members(names))
  {
    if |names| > 0 {
      AddInterfacesFacts(st, names[..|names| - 1]);
      assert forall n :: n in names <==> n in names[..|names| - 1] || n == names[|names| - 1];
    }
  }

  /** `Declared` over a list of files, one file at a time. */
  lemma DeclaredStep(files: seq<SourceFile>)
    requires |files| > 0
    ensures forall c :: Declared(files, c) <==> Declared(files[..|files| - 1], c) || DeclaresIn(files[|files| - 1].classMatches, c)
  {
    var n := |files| - 1;
    var init := files[..n];
    forall c ensures Declared(files, c) <==> Declared(init, c) || DeclaresIn(files[n].classMatches, c) {
      if Declared(files, c) {
        var i :| 0 <= i < |files| && DeclaresIn(files[i].classMatches, c);
        if i < n {
          assert files[i] == init[i];
        }
      }
      if Declared(init, c) {
        var i :| 0 <= i < |init| && DeclaresIn(init[i].classMatches, c);
        assert files[i] == init[i];
      }
    }
  }

  /** Dropping the last file changes nothing about the files before it. */
  lemma RoutesAtInit(known: set<string>, files: seq<SourceFile>, i: int, c: string, p: string, asInterface: bool)
    requires 0 <= i < |files| - 1
    ensures RoutesAt(known, files, i, c, p, asInterface) <==> RoutesAt(known, files[..|files| - 1], i, c, p, asInterface)
  {
    assert files[..i + 1] == files[..|files| - 1][..i + 1];
  }

  /** The pairs routed over a list of files, one file at a time. */
  lemma {:induction false} RoutesStep(known: set<string>, files: seq<SourceFile>, init: seq<SourceFile>,
                                      c: string, p: string, asInterface: bool)
    requires |files| > 0 && init == files[..|files| - 1]
    ensures (exists i :: RoutesAt(known, files, i, c, p, asInterface)) <==>
      (exists i :: RoutesAt(known, init, i, c, p, asInterface)) || RoutesAt(known, files, |init|, c, p, asInterface)
  {
    if exists i :: RoutesAt(known, files, i, c, p, asInterface) {
      var i :| RoutesAt(known, files, i, c, p, asInterface);
      if i < |init| {
        RoutesAtInit(known, files, i, c, p, asInterface);
      }
    }
    if exists i :: RoutesAt(known, init, i, c, p, asInterface) {
      var i :| RoutesAt(known, init, i, c, p, asInterface);
      RoutesAtInit(known, files, i, c, p, asInterface);
    }
  }

  /** `parse` adds exactly the declared interfaces. */
  lemma {:induction false} ParseInterfaces(st: ParseState, files: seq<SourceFile>)
    ensures ParseFrom(st, files).interfaces == st.interfaces + InterfacesOf(files)
  {
    if |files| > 0 {
      var init := files[..|files| - 1];
      var f := files[|files| - 1];
      ParseInterfaces(st, init);
      AddInterfacesFacts(ParseFrom(st, init), f.interfaceMatches);
      AddClassesFacts(AddInterfaces(ParseFrom(st, init), f.interfaceMatches), f.path, f.classMatches);
    }
  }

  /**
   * `parse` adds to `classes` every declared class, mapped to the last
   * file that declares it.
   */
  lemma {:induction false} ParseClasses(st: ParseState, files: seq<SourceFile>)
    ensures var r := ParseFrom(st, files);
      && (forall c :: c in r.classes <==> c in st.classes || Declared(files, c))
      && (forall c, i :: LastDeclares(files, i, c) ==> c in r.classes && r.classes[c] == files[i].path)
  {
    if |files| > 0 {
      var n := |files| - 1;
      var init := files[..n];
      var f := files[n];
      ParseClasses(st, init);
      DeclaredStep(files);
      var st0 := ParseFrom(st, init);
      AddInterfacesFacts(st0, f.interfaceMatches);
      AddClassesFacts(AddInterfaces(st0, f.interfaceMatches), f.path, f.classMatches);
      var r := ParseFrom(st, files);
      forall c, i | LastDeclares(files, i, c)
        ensures c in r.classes && r.classes[c] == files[i].path
      {
        if i < n {
          assert files[i + 1..][n - i - 1] == f;
          assert !DeclaresIn(f.classMatches, c);
          assert init[i + 1..] == files[i + 1..n];
          assert init[i] == files[i];
          assert !Declared(init[i + 1..], c);
          assert LastDeclares(init, i, c);
        } else {
          assert files[i] == f;
        }
      }
    }
  }

  /**
   * `parse` adds a parent named by a class to that class's `implements`
   * exactly when it is an interface known beforehand or declared in the
   * same or an earlier file, and to its `bases` exactly when some
   * declaration lists it while it is not known as one; every class it
   * gives a new relation is in `classes`.
   */
  lemma {:induction false} ParseRelations(st: ParseState, files: seq<SourceFile>)
    ensures var r := ParseFrom(st, files);
      && (forall c, p :: (c, p) in r.implements <==> (c, p) in st.implements || Implemented(st.interfaces, files, c, p))
      && (forall c, p :: (c, p) in r.bases <==> (c, p) in st.bases || Extended(st.interfaces, files, c, p))
      && (forall c, p :: (c, p) in r.implements - st.implements || (c, p) in r.bases - st.bases ==> c in r.classes)
  {
    if |files| > 0 {
      var n := |files| - 1;
      var init := files[..n];
      var f := files[n];
      ParseRelations(st, init);
      ParseInterfaces(st, files);
      ParseClasses(st, init);
      var st0 := ParseFrom(st, init);
      AddInterfacesFacts(st0, f.interfaceMatches);
      AddClassesFacts(AddInterfaces(st0, f.interfaceMatches), f.path, f.classMatches);
      var r := ParseFrom(st, files);
      assert files[..n + 1] == files;
      forall c, p ensures (c, p) in r.implements <==> (c, p) in st.implements || Implemented(st.interfaces, files, c, p) {
        RoutesStep(st.interfaces, files, init, c, p, true);
      }
      forall c, p ensures (c, p) in r.bases <==> (c, p) in st.bases || Extended(st.interfaces, files, c, p) {
        RoutesStep(st.interfaces, files, init, c, p, false);
      }
      forall c, p | (c, p) in r.implements - st.implements || (c, p) in r.bases - st.bases
        ensures c in r.classes
      {
        if (c, p) in r.implements - st.implements {
          if (c, p) !in st0.implements {
            ListsInDeclares(f.classMatches, c, p);
          }
        } else if (c, p) !in st0.bases {
          ListsInDeclares(f.classMatches, c, p);
        }
      }
    }
  }

  /** What `parse` returns, from nothing. */
  lemma ParseFilesFacts(files: seq<SourceFile>)
    ensures var st := ParseFiles(files);
      && st.interfaces == InterfacesOf(files)
      && (forall c :: c in st.classes <==> Declared(files, c))
      && (forall c, i :: LastDeclares(files, i, c) ==> c in st.classes && st.classes[c] == files[i].path)
      && (forall c, p :: (c, p) in st.implements <==> Implemented({}, files, c, p))
      && (forall c, p :: (c, p) in st.bases <==> Extended({}, files, c, p))
      && (forall c, p :: (c, p) in st.implements || (c, p) in st.bases ==> c in st.classes)
  {
    ParseInterfaces(Empty, files);
    ParseClasses(Empty, files);
    ParseRelations(Empty, files);
  }

  /** The loop over one class's parent names: each goes to `implements` or `bases`. */
  method RouteAll(st: ParseState, cls: string, ps: seq<string>) returns (r: ParseState)
    ensures r == RouteParents(st, cls, ps)
  {
    r := st;
    var n := 0;
    while n < |ps|
      invariant 0 <= n <= |ps|
      invariant r == RouteParents(st, cls, ps[..n])
    {
      assert ps[..n + 1][..n] == ps[..n];
      var p := ps[n];
      if p in r.interfaces {
        r := r.(implements := r.implements + {(cls, p)});
      } else {
        r := r.(bases := r.bases + {(cls, p)});
      }
      n := n + 1;
    }
    assert ps[..n] == ps;
  }

  /** The loop over one file's class declarations. */
  method AddAllClasses(st: ParseState, path: string, ms: seq<ClassMatch>) returns (r: ParseState)
    ensures r == AddClasses(st, path, ms)
  {
    r := st;
    var k := 0;
    while k < |ms|
      invariant 0 <= k <= |ms|
      invariant r == AddClasses(st, path, ms[..k])
    {
      var m := ms[k];
      assert ms[..k + 1][..k] == ms[..k];
      if m.parents.Some? {
        r := RouteAll(r, m.name, ParentNames(m.parents.value));
      }
      r := r.(classes := r.classes[m.name := path]);
      k := k + 1;
    }
    assert ms[..k] == ms;
  }

  /** The loop over one file's interface declarations. */
  method AddAllInterfaces(st: ParseState, names: seq<string>) returns (r: ParseState)
    ensures r == AddInterfaces(st, names)
  {
    r := st;
    var j := 0;
    while j < |names|
      invariant 0 <= j <= |names|
      invariant r == AddInterfaces(st, names[..j])
    {
      assert names[..j + 1][..j] == names[..j];
      r := r.(interfaces := r.interfaces + {names[j]});
      j := j + 1;
    }
    assert names[..j] == names;
  }

  /**
   * `parse()`: the four collections, as the fold over the files computes
   * them, with what that fold is proved to collect.
   */
  method Parse(files: seq<SourceFile>)
    returns (classes: map<string, string>, interfaces: set<string>,
             bases: set<(string, string)>, implements: set<(string, string)>)
    ensures ParseState(classes, interfaces, bases, implements) == ParseFiles(files)
    ensures interfaces == InterfacesOf(files)
    ensures forall c :: c in classes <==> Declared(files, c)
    ensures forall c, i :: LastDeclares(files, i, c) ==> c in classes && classes[c] == files[i].path
    ensures forall c, p :: (c, p) in implements <==> Implemented({}, files, c, p)
    ensures forall c, p :: (c, p) in bases <==> Extended({}, files, c, p)
    ensures forall c, p :: (c, p) in implements || (c, p) in bases ==> c in classes
  {
    var st := Empty;
    var i := 0;
    while i < |files|
      invariant 0 <= i <= |files|
      invariant st == ParseFiles(files[..i])
    {
      var f := files[i];
      assert files[..i + 1][..i] == files[..i];
      st := AddAllInterfaces(st, f.interfaceMatches);
      st := AddAllClasses(st, f.path, f.classMatches);
      i := i + 1;
    }
    assert files[..i] == files;
    ParseFilesFacts(files);
    classes, interfaces, bases, implements := st.classes, st.interfaces, st.bases, st.implements;
  }

  // ---------------------------------------------------------------------
  // Interfaces declared in a later file
  // ---------------------------------------------------------------------

  /** Some file lists `p` as a parent of `c`. */
  ghost predicate Listed(files: seq<SourceFile>, c: string, p: string)
  {
    exists i :: 0 <= i < |files| && ListsIn(files[i].classMatches, c, p)
  }

  /** The interfaces of a prefix of the files are among those of all the files. */
  lemma {:induction false} InterfacesOfPrefix(files: seq<SourceFile>, i: int)
    requires 0 <= i < |files|
    ensures InterfacesOf(files[..i + 1]) <= InterfacesOf(files)
  {
    var n := |files| - 1;
    if i == n {
      assert files[..i + 1] == files;
    } else {
      InterfacesOfPrefix(files[..n], i);
      assert files[..n][..i + 1] == files[..i + 1];
    }
  }

  /**
   * `parse` as intended: every parent is classified against all the
   * interfaces the scripts declare, in whatever order the files come.
   */
  function ParseFilesAllKnown(files: seq<SourceFile>): ParseState
  {
    ParseFrom(Empty.(interfaces := InterfacesOf(files)), files)
  }

  /**
   * With all interfaces known up front, a listed parent is in
   * `implements` exactly when some script declares it as an interface,
   * and in `bases` exactly when none does; the file order no longer
   * matters.
   */
  lemma {:induction false} AllKnownRouting(files: seq<SourceFile>)
    ensures var r := ParseFilesAllKnown(files);
      && r.interfaces == InterfacesOf(files)
      && (forall c :: c in r.classes <==> Declared(files, c))
      && (forall c, p :: (c, p) in r.implements <==> Listed(files, c, p) && p in InterfacesOf(files))
      && (forall c, p :: (c, p) in r.bases <==> Listed(files, c, p) && p !in InterfacesOf(files))
  {
    var known := InterfacesOf(files);
    var st := Empty.(interfaces := known);
    ParseInterfaces(st, files);
    ParseClasses(st, files);
    ParseRelations(st, files);
    forall c, p ensures Implemented(known, files, c, p) <==> Listed(files, c, p) && p in known {
      if Implemented(known, files, c, p) {
        var i :| RoutesAt(known, files, i, c, p, true);
        InterfacesOfPrefix(files, i);
      }
      if Listed(files, c, p) && p in known {
        var i :| 0 <= i < |files| && ListsIn(files[i].classMatches, c, p);
        assert RoutesAt(known, files, i, c, p, true);
      }
    }
    forall c, p ensures Extended(known, files, c, p) <==> Listed(files, c, p) && p !in known {
      if Listed(files, c, p) && p !in known {
        var i :| 0 <= i < |files| && ListsIn(files[i].classMatches, c, p);
        InterfacesOfPrefix(files, i);
        assert RoutesAt(known, files, i, c, p, false);
      }
    }
  }

  /** A single stripped, comma-free name is its own parent list. */
  lemma ParentNamesOfOne(x: string)
    requires x != "" && Stripped(x) && ',' !in x
    ensures ParentNames(x) == [x]
  {
    ParentNamesOfList([x]);
    assert Text.Join([x], ",") == x;
  }

  /** A class declared before the interface it lists. */
  const GunFirst: seq<SourceFile> :=
    [SourceFile("Gun.cs", [], [ClassMatch("Gun", Some("IWeapon"))]), SourceFile("IWeapon.cs", ["IWeapon"], [])]

  /** The two files of `GunFirst`, one at a time. */
  lemma GunFirstSteps()
    ensures GunFirst[..1] == [GunFirst[0]] && GunFirst[..1][..0] == [] && GunFirst[..2] == GunFirst
    ensures InterfacesOf(GunFirst[..1]) == {} && InterfacesOf(GunFirst) == {"IWeapon"}
    ensures ParentNames("IWeapon") == ["IWeapon"]
    ensures ListsIn(GunFirst[0].classMatches, "Gun", "IWeapon")
  {
    GunListsInterface();
    assert GunFirst[..1] == [GunFirst[0]];
    assert InterfacesOf(GunFirst[..1]) == {};
  }

  /** The class of `GunFirst` lists its interface as a parent. */
  lemma GunListsInterface()
    ensures ParentNames("IWeapon") == ["IWeapon"]
    ensures ListsIn(GunFirst[0].classMatches, "Gun", "IWeapon")
  {
    ParentNamesOfOne("IWeapon");
    assert Lists(GunFirst[0].classMatches[0], "Gun", "IWeapon");
  }

  /**
   * `parse` as written, on `GunFirst`: it records the interface, yet
   * draws the class as inheriting from it.
   */
  lemma LaterInterfaceCountsAsBase()
    ensures "IWeapon" in ParseFiles(GunFirst).interfaces
    ensures ("Gun", "IWeapon") in ParseFiles(GunFirst).bases
    ensures ("Gun", "IWeapon") !in ParseFiles(GunFirst).implements
  {
    var files := GunFirst;
    GunFirstSteps();
    var gun := files[0].classMatches[0];
    var routed := RouteParents(Empty, "Gun", ["IWeapon"]);
    assert ["IWeapon"][..0] == [];
    assert routed == Empty.(bases := {("Gun", "IWeapon")});
    assert AddClass(Empty, "Gun.cs", gun) == routed.(classes := map["Gun" := "Gun.cs"]);
    assert [gun][..0] == [];
    var st0 := ParseFile(Empty, files[0]);
    assert st0 == routed.(classes := map["Gun" := "Gun.cs"]);
    assert ParseFrom(Empty, files[..1]) == st0;
    assert ["IWeapon"][..0] == [];
    var st1 := ParseFile(st0, files[1]);
    assert st1 == st0.(interfaces := {"IWeapon"});
  }

  /** With all interfaces known up front, the class of `GunFirst` implements its interface. */
  lemma LaterInterfaceImplementedWhenAllKnown()
    ensures ("Gun", "IWeapon") in ParseFilesAllKnown(GunFirst).implements
    ensures ("Gun", "IWeapon") !in ParseFilesAllKnown(GunFirst).bases
  {
    GunFirstSteps();
    AllKnownRouting(GunFirst);
    assert Listed(GunFirst, "Gun", "IWeapon");
  }

  // ---------------------------------------------------------------------
  // The scripts of the class-parsing test
  // ---------------------------------------------------------------------

  /** A name the regular expression captured with the spaces before `{`. */
  lemma StripTrailingSpace(x: string)
    requires x != "" && Stripped(x)
    ensures Strip(x + " ") == x
  {
    var t := x + " ";
    assert t[0] == x[0];
    Text.TrimIdentity(x, PyWhite);
    assert Text.TrimStart(t, PyWhite) == t;
    assert t[..|t| - 1] == x;
  }

  /** A name after `, ` with the spaces before `{`. */
  lemma StripPaddedName(x: string)
    requires x != "" && Stripped(x)
    ensures Strip(" " + x + " ") == x
  {
    var t := " " + x + " ";
    assert t[1..] == x + " ";
    StripTrailingSpace(x);
    assert (x + " ")[0] == x[0];
    assert Text.TrimStart(x + " ", PyWhite) == x + " ";
  }

  /** One parent followed by the spaces before `{`. */
  lemma ParentNamesOfOnePadded(x: string)
    requires x != "" && Stripped(x) && ',' !in x
    ensures ParentNames(x + " ") == [x]
  {
    Text.SplitNoSep(x + " ", ',');
    StripTrailingSpace(x);
    assert [x + " "][1..] == [];
    assert StripAll([x + " "]) == [x] + StripAll([]);
  }

  /** Two parents, `a, b`, followed by the spaces before `{`. */
  lemma ParentNamesOfTwoPadded(a: string, b: string)
    requires a != "" && Stripped(a) && ',' !in a
    requires b != "" && Stripped(b) && ',' !in b
    ensures ParentNames(a + ", " + b + " ") == [a, b]
  {
    var t := " " + b + " ";
    assert a + ", " + b + " " == a + [','] + t;
    Text.SplitPrefix(a, t, ',');
    Text.SplitNoSep(t, ',');
    StripFacts(a);
    StripPaddedName(b);
    var pieces := [a, t];
    assert pieces[1..] == [t] && [t][1..] == [];
    assert StripAll([t]) == [b] + StripAll([]);
    assert StripAll(pieces) == [a] + StripAll([t]);
  }

  /** The three scripts of the class-parsing test, as their matches. */
  const WeaponScripts: seq<SourceFile> := [
    SourceFile("BaseWeapon.cs", ["IWeapon"], [ClassMatch("BaseWeapon", Some("MonoBehaviour, IWeapon "))]),
    SourceFile("Pistol.cs", [], [ClassMatch("Pistol", Some("BaseWeapon "))]),
    SourceFile("ScoreManager.cs", [], [ClassMatch("ScoreManager", Some("Singleton<ScoreManager> "))])]

  /** The first script's parent list, read. */
  lemma BaseWeaponParents()
    ensures ListsIn(WeaponScripts[0].classMatches, "BaseWeapon", "MonoBehaviour")
    ensures ListsIn(WeaponScripts[0].classMatches, "BaseWeapon", "IWeapon")
  {
    assert "MonoBehaviour, IWeapon " == "MonoBehaviour" + ", " + "IWeapon" + " ";
    ParentNamesOfTwoPadded("MonoBehaviour", "IWeapon");
    assert Lists(WeaponScripts[0].classMatches[0], "BaseWeapon", "MonoBehaviour");
    assert Lists(WeaponScripts[0].classMatches[0], "BaseWeapon", "IWeapon");
  }

  /** A script whose one class has one parent, captured with a trailing space. */
  lemma OneParentListed(f: SourceFile, c: string, p: string)
    requires f.classMatches == [ClassMatch(c, Some(p + " "))]
    requires p != "" && Stripped(p) && ',' !in p
    ensures ListsIn(f.classMatches, c, p)
  {
    ParentNamesOfOnePadded(p);
    assert Lists(f.classMatches[0], c, p);
  }

  /** The second script's parent list, read. */
  lemma PistolParents()
    ensures ListsIn(WeaponScripts[1].classMatches, "Pistol", "BaseWeapon")
  {
    assert "BaseWeapon " == "BaseWeapon" + " ";
    OneParentListed(WeaponScripts[1], "Pistol", "BaseWeapon");
  }

  /** The third script's parent list, read: the generic base keeps its type argument. */
  lemma ScoreManagerParents()
    ensures ListsIn(WeaponScripts[2].classMatches, "ScoreManager", "Singleton<ScoreManager>")
  {
    var p := "Singleton<ScoreManager>";
    assert "Singleton<ScoreManager> " == p + " ";
    assert Stripped(p);
    assert ',' !in p;
    OneParentListed(WeaponScripts[2], "ScoreManager", p);
  }

  /** The interfaces the scripts declare, file by file. */
  lemma WeaponScriptsInterfaces()
    ensures InterfacesOf(WeaponScripts[..1]) == {"IWeapon"}
    ensures InterfacesOf(WeaponScripts[..2]) == {"IWeapon"}
    ensures InterfacesOf(WeaponScripts[..3]) == InterfacesOf(WeaponScripts) == {"IWeapon"}
  {
    var w := WeaponScripts;
    assert w[..1][..0] == [] && w[..2][..1] == w[..1] && w[..3] == w && w[..3][..2] == w[..2];
    assert InterfacesOf(w[..1]) == {"IWeapon"};
    assert InterfacesOf(w[..2]) == {"IWeapon"};
  }

  /** The class-parsing test, declarations: the interface and the three classes are found. */
  lemma WeaponScriptsDeclarations()
    ensures var st := ParseFiles(WeaponScripts);
      && "IWeapon" in st.interfaces
      && "BaseWeapon" in st.classes && "Pistol" in st.classes && "ScoreManager" in st.classes
  {
    var w := WeaponScripts;
    assert w[0].classMatches[0].name == "BaseWeapon" && DeclaresIn(w[0].classMatches, "BaseWeapon");
    assert w[1].classMatches[0].name == "Pistol" && DeclaresIn(w[1].classMatches, "Pistol");
    assert w[2].classMatches[0].name == "ScoreManager" && DeclaresIn(w[2].classMatches, "ScoreManager");
    assert Declared(w, "BaseWeapon") && Declared(w, "Pistol") && Declared(w, "ScoreManager");
    WeaponScriptsInterfaces();
    ParseFilesFacts(w);
  }

  /** The class-parsing test, the first script: `MonoBehaviour` is a base and `IWeapon` is implemented. */
  lemma WeaponScriptsBaseWeapon()
    ensures var st := ParseFiles(WeaponScripts);
      && ("BaseWeapon", "MonoBehaviour") in st.bases
      && ("BaseWeapon", "IWeapon") in st.implements
  {
    MonoBehaviourRoute();
    IWeaponRoute();
    RoutedParent(WeaponScripts, 0, "BaseWeapon", "MonoBehaviour", false);
    RoutedParent(WeaponScripts, 0, "BaseWeapon", "IWeapon", true);
  }

  /** A parent routed at some file ends up among the implementations or the bases accordingly. */
  lemma RoutedParent(files: seq<SourceFile>, i: int, c: string, p: string, asInterface: bool)
    requires RoutesAt({}, files, i, c, p, asInterface)
    ensures asInterface ==> (c, p) in ParseFiles(files).implements
    ensures !asInterface ==> (c, p) in ParseFiles(files).bases
  {
    ParseFilesFacts(files);
  }

  /** The first script's first parent is not an interface when it is read. */
  lemma MonoBehaviourRoute()
    ensures RoutesAt({}, WeaponScripts, 0, "BaseWeapon", "MonoBehaviour", false)
  {
    BaseWeaponParents();
    WeaponScriptsInterfaces();
  }

  /** The first script's second parent is an interface when it is read. */
  lemma IWeaponRoute()
    ensures RoutesAt({}, WeaponScripts, 0, "BaseWeapon", "IWeapon", true)
  {
    BaseWeaponParents();
    WeaponScriptsInterfaces();
  }

  /** The second script's parent is not an interface when it is read. */
  lemma PistolRoute()
    ensures RoutesAt({}, WeaponScripts, 1, "Pistol", "BaseWeapon", false)
  {
    PistolParents();
    WeaponScriptsInterfaces();
  }

  /** The third script's parent is not an interface when it is read. */
  lemma ScoreManagerRoute()
    ensures RoutesAt({}, WeaponScripts, 2, "ScoreManager", "Singleton<ScoreManager>", false)
  {
    ScoreManagerParents();
    WeaponScriptsInterfaces();
  }

  /** The class-parsing test, the other scripts: `BaseWeapon` and the generic `Singleton<ScoreManager>` are bases. */
  lemma WeaponScriptsSubclasses()
    ensures var st := ParseFiles(WeaponScripts);
      && ("Pistol", "BaseWeapon") in st.bases
      && ("ScoreManager", "Singleton<ScoreManager>") in st.bases
  {
    PistolRoute();
    ScoreManagerRoute();
    RoutedParent(WeaponScripts, 1, "Pistol", "BaseWeapon", false);
    RoutedParent(WeaponScripts, 2, "ScoreManager", "Singleton<ScoreManager>", false);
  }

  // ---------------------------------------------------------------------
  // `emit_puml`
  // ---------------------------------------------------------------------

  const Title: string := "Class Inheritance & Interface Implementation"
  const Skin: string := "classAttributeIconSize 0"

  /** The base name PlantUML is given: a generic base loses its type arguments. */
  function CleanBase(b: string): (r: string)
    ensures r <= b && '<' !in r
    ensures |r| < |b| ==> b[|r|] == '<'
  {
    Text.SplitFirst(b, '<');
    if '<' in b then Text.Split(b, '<')[0] else b
  }

  /** The `<base> <|-- <child>` line of a (child, base) pair. */
  function ExtendsLine(pair: (string, string)): string
  {
    CleanBase(pair.1) + " <|-- " + pair.0
  }

  /** The `<interface> <|.. <class>` line of a (class, interface) pair. */
  function ImplementsLine(pair: (string, string)): string
  {
    pair.1 + " <|.. " + pair.0
  }

  function ExtendsLines(pairs: seq<(string, string)>): (r: seq<string>)
    ensures |r| == |pairs| && forall k :: 0 <= k < |r| ==> r[k] == ExtendsLine(pairs[k])
  {
    seq(|pairs|, k requires 0 <= k < |pairs| => ExtendsLine(pairs[k]))
  }

  function ImplementsLines(pairs: seq<(string, string)>): (r: seq<string>)
    ensures |r| == |pairs| && forall k :: 0 <= k < |r| ==> r[k] == ImplementsLine(pairs[k])
  {
    seq(|pairs|, k requires 0 <= k < |pairs| => ImplementsLine(pairs[k]))
  }

  /** Both kinds of arrow lines over one more pair. */
  lemma LinesSnoc(pairs: seq<(string, string)>, k: int)
    requires 0 <= k < |pairs|
    ensures ExtendsLines(pairs[..k + 1]) == ExtendsLines(pairs[..k]) + [ExtendsLine(pairs[k])]
    ensures ImplementsLines(pairs[..k + 1]) == ImplementsLines(pairs[..k]) + [ImplementsLine(pairs[k])]
  {
  }

  /**
   * The diagram for given orders of the four collections: interfaces,
   * then classes, then the inheritance arrows, then the implementation
   * arrows.
   */
  function ClassDiagram(interfaces: seq<string>, classes: seq<string>,
                        bases: seq<(string, string)>, implements: seq<(string, string)>): seq<string>
  {
    Framed(Title, Skin,
      Decorated("interface ", interfaces, "") + Decorated("class ", classes, "") +
      ExtendsLines(bases) + ImplementsLines(implements))
  }

  /** The diagram as `emit_puml` assembles it: header lines, interfaces, classes, inheritance arrows, implementation arrows, closing line. */
  lemma ClassDiagramAssembled(interfaces: seq<string>, classes: seq<string>,
                              bases: seq<(string, string)>, implements: seq<(string, string)>)
    ensures ClassDiagram(interfaces, classes, bases, implements)
      == ["@startuml", "title " + Title, "skinparam " + Skin] + Decorated("interface ", interfaces, "")
         + Decorated("class ", classes, "") + ExtendsLines(bases) + ImplementsLines(implements) + ["@enduml"]
  {
    var h := ["@startuml", "title " + Title, "skinparam " + Skin];
    var a := Decorated("interface ", interfaces, "");
    var b := Decorated("class ", classes, "");
    var c := ExtendsLines(bases);
    var d := ImplementsLines(implements);
    assert h + (a + b + c + d) + ["@enduml"] == h + a + b + c + d + ["@enduml"];
  }

  /** `for n in names: out.append(f'{prefix}{n}')`. */
  method AppendDecorated(out: seq<string>, prefix: string, names: seq<string>) returns (r: seq<string>)
    ensures r == out + Decorated(prefix, names, "")
  {
    r := out;
    for k := 0 to |names|
      invariant r == out + Decorated(prefix, names[..k], "")
    {
      DecoratedSnoc(prefix, names, k, "");
      assert prefix + names[k] + "" == prefix + names[k];
      r := r + [prefix + names[k]];
    }
    assert names[..|names|] == names;
  }

  /** The inheritance loop: one `<base> <|-- <child>` line per pair, in the given order. */
  method AppendExtends(out: seq<string>, pairs: seq<(string, string)>) returns (r: seq<string>)
    ensures r == out + ExtendsLines(pairs)
  {
    r := out;
    for k := 0 to |pairs|
      invariant r == out + ExtendsLines(pairs[..k])
    {
      LinesSnoc(pairs, k);
      r := r + [CleanBase(pairs[k].1) + " <|-- " + pairs[k].0];
    }
    assert pairs[..|pairs|] == pairs;
  }

  /** The implementation loop: one `<interface> <|.. <class>` line per pair, in the given order. */
  method AppendImplements(out: seq<string>, pairs: seq<(string, string)>) returns (r: seq<string>)
    ensures r == out + ImplementsLines(pairs)
  {
    r := out;
    for k := 0 to |pairs|
      invariant r == out + ImplementsLines(pairs[..k])
    {
      LinesSnoc(pairs, k);
      r := r + [pairs[k].1 + " <|.. " + pairs[k].0];
    }
    assert pairs[..|pairs|] == pairs;
  }

  /**
   * `emit_puml`: interfaces and classes in sorted order, then one arrow per
   * (child, base) pair and one per (class, interface) pair, in the order
   * the sets are iterated, all framed and joined with newlines.
   */
  method EmitPuml(classes: map<string, string>, interfaces: set<string>,
                  bases: set<(string, string)>, implements: set<(string, string)>)
    returns (puml: string, ghost sortedInterfaces: seq<string>, ghost sortedClasses: seq<string>,
             ghost baseOrder: seq<(string, string)>, ghost implementsOrder: seq<(string, string)>)
    ensures SortedBy(sortedInterfaces, StrLe) && multiset(sortedInterfaces) == multiset(interfaces)
    ensures SortedBy(sortedClasses, StrLe) && multiset(sortedClasses) == multiset(classes.Keys)
    ensures Listing(baseOrder, bases) && Listing(implementsOrder, implements)
    ensures puml == Text.Join(ClassDiagram(sortedInterfaces, sortedClasses, baseOrder, implementsOrder), "\n")
  {
    var out := ["@startuml", "title " + Title, "skinparam " + Skin];
    var si := SortedNames(interfaces);
    out := AppendDecorated(out, "interface ", si);
    var sc := SortedNames(classes.Keys);
    out := AppendDecorated(out, "class ", sc);
    var eo := InSomeOrder(bases);
    out := AppendExtends(out, eo);
    var io := InSomeOrder(implements);
    out := AppendImplements(out, io);
    out := out + ["@enduml"];
    ClassDiagramAssembled(si, sc, eo, io);
    puml := Text.Join(out, "\n");
    sortedInterfaces, sortedClasses, baseOrder, implementsOrder := si, sc, eo, io;
  }

  /** Where each part of the body sits in the diagram. */
  lemma DiagramLayout(si: seq<string>, sc: seq<string>, eo: seq<(string, string)>, io: seq<(string, string)>)
    ensures var d := ClassDiagram(si, sc, eo, io);
      && |d| == |si| + |sc| + |eo| + |io| + 4
      && (forall k :: 0 <= k < |si| ==> d[3 + k] == "interface " + si[k])
      && (forall k :: 0 <= k < |sc| ==> d[3 + |si| + k] == "class " + sc[k])
      && (forall k :: 0 <= k < |eo| ==> d[3 + |si| + |sc| + k] == ExtendsLine(eo[k]))
      && (forall k :: 0 <= k < |io| ==> d[3 + |si| + |sc| + |eo| + k] == ImplementsLine(io[k]))
  {
    NameLinesLayout(si, sc, eo, io);
    ArrowLinesLayout(si, sc, eo, io);
  }

  /** The body of the diagram sits between the three header lines and the closing line. */
  lemma DiagramBody(si: seq<string>, sc: seq<string>, eo: seq<(string, string)>, io: seq<(string, string)>)
    ensures var d := ClassDiagram(si, sc, eo, io);
      && |d| == |si| + |sc| + |eo| + |io| + 4
      && d[3..|d| - 1] == Decorated("interface ", si, "") + Decorated("class ", sc, "") + ExtendsLines(eo) + ImplementsLines(io)
  {
  }

  /** Where the interface and class lines sit. */
  lemma NameLinesLayout(si: seq<string>, sc: seq<string>, eo: seq<(string, string)>, io: seq<(string, string)>)
    ensures var d := ClassDiagram(si, sc, eo, io);
      && |d| == |si| + |sc| + |eo| + |io| + 4
      && (forall k :: 0 <= k < |si| ==> d[3 + k] == "interface " + si[k])
      && (forall k :: 0 <= k < |sc| ==> d[3 + |si| + k] == "class " + sc[k])
  {
    var d := ClassDiagram(si, sc, eo, io);
    var body := Decorated("interface ", si, "") + Decorated("class ", sc, "") + ExtendsLines(eo) + ImplementsLines(io);
    DiagramBody(si, sc, eo, io);
    forall k | 0 <= k < |si|
      ensures d[3 + k] == "interface " + si[k]
    {
      assert d[3 + k] == body[k] == "interface " + si[k] + "";
    }
    forall k | 0 <= k < |sc|
      ensures d[3 + |si| + k] == "class " + sc[k]
    {
      assert d[3 + |si| + k] == body[|si| + k] == "class " + sc[k] + "";
    }
  }

  /** Where the inheritance and implementation arrows sit. */
  lemma ArrowLinesLayout(si: seq<string>, sc: seq<string>, eo: seq<(string, string)>, io: seq<(string, string)>)
    ensures var d := ClassDiagram(si, sc, eo, io);
      && |d| == |si| + |sc| + |eo| + |io| + 4
      && (forall k :: 0 <= k < |eo| ==> d[3 + |si| + |sc| + k] == ExtendsLine(eo[k]))
      && (forall k :: 0 <= k < |io| ==> d[3 + |si| + |sc| + |eo| + k] == ImplementsLine(io[k]))
  {
    ExtendsLayout(si, sc, eo, io);
    ImplementsLayout(si, sc, eo, io);
  }

  /** Where the inheritance arrows sit. */
  lemma ExtendsLayout(si: seq<string>, sc: seq<string>, eo: seq<(string, string)>, io: seq<(string, string)>)
    ensures var d := ClassDiagram(si, sc, eo, io);
      && |d| == |si| + |sc| + |eo| + |io| + 4
      && forall k :: 0 <= k < |eo| ==> d[3 + |si| + |sc| + k] == ExtendsLine(eo[k])
  {
    var d := ClassDiagram(si, sc, eo, io);
    var pre := Decorated("interface ", si, "") + Decorated("class ", sc, "");
    var mid := ExtendsLines(eo);
    DiagramBody(si, sc, eo, io);
    FramedMiddle(d, pre, mid, ImplementsLines(io));
    forall k | 0 <= k < |eo|
      ensures d[3 + |si| + |sc| + k] == ExtendsLine(eo[k])
    {
      assert d[3 + |pre| + k] == mid[k];
    }
  }

  /** In a framed body made of three parts, where the middle part's lines sit. */
  lemma FramedMiddle(d: seq<string>, pre: seq<string>, mid: seq<string>, post: seq<string>)
    requires |d| == |pre| + |mid| + |post| + 4 && d[3..|d| - 1] == pre + mid + post
    ensures forall k :: 0 <= k < |mid| ==> d[3 + |pre| + k] == mid[k]
  {
    forall k | 0 <= k < |mid|
      ensures d[3 + |pre| + k] == mid[k]
    {
      assert d[3 + |pre| + k] == (pre + mid + post)[|pre| + k];
      assert (pre + mid + post)[|pre| + k] == (pre + mid)[|pre| + k];
    }
  }

  /** Where the implementation arrows sit. */
  lemma ImplementsLayout(si: seq<string>, sc: seq<string>, eo: seq<(string, string)>, io: seq<(string, string)>)
    ensures var d := ClassDiagram(si, sc, eo, io);
      && |d| == |si| + |sc| + |eo| + |io| + 4
      && forall k :: 0 <= k < |io| ==> d[3 + |si| + |sc| + |eo| + k] == ImplementsLine(io[k])
  {
    var d := ClassDiagram(si, sc, eo, io);
    var pre := Decorated("interface ", si, "") + Decorated("class ", sc, "") + ExtendsLines(eo);
    var body := pre + ImplementsLines(io);
    DiagramBody(si, sc, eo, io);
    forall k | 0 <= k < |io|
      ensures d[3 + |si| + |sc| + |eo| + k] == ImplementsLine(io[k])
    {
      assert d[3 + |pre| + k] == body[|pre| + k];
    }
  }

  /**
   * Whatever order the sets are iterated in, the diagram has one
   * `interface` line per interface, one `class` line per class, one
   * inheritance arrow per (child, base) pair and one implementation arrow
   * per (class, interface) pair, and nothing else between its frame.
   */
  lemma DiagramCovers(si: seq<string>, sc: seq<string>, eo: seq<(string, string)>, io: seq<(string, string)>,
                      interfaces: set<string>, classes: set<string>,
                      bases: set<(string, string)>, implements: set<(string, string)>)
    requires multiset(si) == multiset(interfaces) && multiset(sc) == multiset(classes)
    requires Listing(eo, bases) && Listing(io, implements)
    ensures var d := ClassDiagram(si, sc, eo, io);
      && |d| == |interfaces| + |classes| + |bases| + |implements| + 4
      && (forall i :: i in interfaces ==> "interface " + i in d)
      && (forall c :: c in classes ==> "class " + c in d)
      && (forall pr :: pr in bases ==> ExtendsLine(pr) in d)
      && (forall pr :: pr in implements ==> ImplementsLine(pr) in d)
  {
    var d := ClassDiagram(si, sc, eo, io);
    DiagramLayout(si, sc, eo, io);
    assert |si| == |multiset(si)| == |multiset(interfaces)| == |interfaces|;
    assert |sc| == |multiset(sc)| == |multiset(classes)| == |classes|;
    forall i | i in interfaces
      ensures "interface " + i in d
    {
      assert i in multiset(si);
      var k :| 0 <= k < |si| && si[k] == i;
      assert d[3 + k] == "interface " + i;
    }
    forall c | c in classes
      ensures "class " + c in d
    {
      assert c in multiset(sc);
      var k :| 0 <= k < |sc| && sc[k] == c;
      assert d[3 + |si| + k] == "class " + c;
    }
    forall pr | pr in bases
      ensures ExtendsLine(pr) in d
    {
      var k :| 0 <= k < |eo| && eo[k] == pr;
      assert d[3 + |si| + |sc| + k] == ExtendsLine(pr);
    }
    forall pr | pr in implements
      ensures ImplementsLine(pr) in d
    {
      var k :| 0 <= k < |io| && io[k] == pr;
      assert d[3 + |si| + |sc| + |eo| + k] == ImplementsLine(pr);
    }
  }

  /** A generic base `B<A>` is drawn as `B`; a base without `<` is drawn as it is. */
  lemma CleanGeneric(base: string, args: string)
    requires '<' !in base
    ensures CleanBase(base + "<" + args) == base
    ensures CleanBase(base) == base
  {
    Text.SplitPrefix(base, args, '<');
    assert base + "<" + args == base + ['<'] + args;
  }

  /** The frame's own lines hold no `>`. */
  lemma FrameAvoidsAngle()
    ensures '>' !in "@startuml" && '>' !in "@enduml"
    ensures '>' !in "title " + Title && '>' !in "skinparam " + Skin
  {
    assert forall k :: 0 <= k < |Title| ==> Title[k] != '>';
    assert forall k :: 0 <= k < |Skin| ==> Skin[k] != '>';
  }

  /**
   * One class with one generic base and nothing else: the diagram holds
   * the class and an arrow from the bare base, and none of the type
   * arguments' closing `>`.
   */
  lemma OneGenericBase(c: string, b: string, args: string)
    requires '<' !in b && '>' !in c && '>' !in b
    ensures ClassDiagram([], [c], [(c, b + "<" + args)], []) ==
      ["@startuml", "title " + Title, "skinparam " + Skin, "class " + c, b + " <|-- " + c, "@enduml"]
    ensures '>' !in Text.Join(ClassDiagram([], [c], [(c, b + "<" + args)], []), "\n")
  {
    CleanGeneric(b, args);
    var d := ClassDiagram([], [c], [(c, b + "<" + args)], []);
    assert Decorated("class ", [c], "")[0] == "class " + c + "";
    assert "class " + c + "" == "class " + c;
    assert d == ["@startuml", "title " + Title, "skinparam " + Skin, "class " + c, b + " <|-- " + c, "@enduml"];
    FrameAvoidsAngle();
    assert '>' !in "class " + c && '>' !in b + " <|-- " + c;
    assert forall k :: 0 <= k < |d| ==> '>' !in d[k];
    Text.JoinAvoids(d, "\n", '>');
  }

  /** A text without `>` contains no text that has one. */
  lemma AbsentChar(s: string, sub: string, k: int)
    requires 0 <= k < |sub| && sub[k] == '>' && '>' !in s
    ensures !Text.Contains(s, sub)
  {
  }

  /**
   * The generic-base test: a class `ScoreManager` extending
   * `Singleton<ScoreManager>`, with no interfaces, gives a diagram whose
   * arrow names the base `Singleton` and whose text does not contain
   * `Singleton<ScoreManager>`.
   */
  lemma GenericBaseDiagram(si: seq<string>, sc: seq<string>, eo: seq<(string, string)>, io: seq<(string, string)>)
    requires multiset(si) == multiset({}) && multiset(sc) == multiset(map["ScoreManager" := "test"].Keys)
    requires Listing(eo, {("ScoreManager", "Singleton<ScoreManager>")}) && Listing(io, {})
    ensures "Singleton" + " <|-- " + "ScoreManager" in ClassDiagram(si, sc, eo, io)
    ensures !Text.Contains(Text.Join(ClassDiagram(si, sc, eo, io), "\n"), "Singleton<ScoreManager>")
  {
    GenericBaseOrders(si, sc, eo, io);
    assert "Singleton<ScoreManager>" == "Singleton" + "<" + "ScoreManager>";
    OneGenericBase("ScoreManager", "Singleton", "ScoreManager>");
    AbsentChar(Text.Join(ClassDiagram(si, sc, eo, io), "\n"), "Singleton<ScoreManager>", 22);
  }

  /** With one class and one base pair, every iteration order is the only one there is. */
  lemma GenericBaseOrders(si: seq<string>, sc: seq<string>, eo: seq<(string, string)>, io: seq<(string, string)>)
    requires multiset(si) == multiset({}) && multiset(sc) == multiset(map["ScoreManager" := "test"].Keys)
    requires Listing(eo, {("ScoreManager", "Singleton<ScoreManager>")}) && Listing(io, {})
    ensures si == [] && sc == ["ScoreManager"] && io == []
    ensures eo == [("ScoreManager", "Singleton<ScoreManager>")]
  {
    assert |si| == |multiset(si)| == 0;
    assert map["ScoreManager" := "test"].Keys == {"ScoreManager"};
    SingleOrder(sc, "ScoreManager");
    SingleListing(eo, ("ScoreManager", "Singleton<ScoreManager>"));
  }

  /** The only listing of a single pair. */
  lemma SingleListing(s: seq<(string, string)>, x: (string, string))
    requires Listing(s, {x})
    ensures s == [x]
  {
    assert s[0] in {x};
  }

  /** The only order of a single name. */
  lemma SingleOrder(s: seq<string>, x: string)
    requires multiset(s) == multiset({x})
    ensures s == [x]
  {
    assert |s| == |multiset(s)| == 1;
    assert s[0] in multiset(s);
  }
}
