/**
 * `DevTools/Diagrams/generate_call_graph.py`: an approximate class-to-class
 * call graph. A script is given by what the regular expressions find in
 * its stripped text: the name of its first `class`, if any, and the
 * capitalised receivers of its `Receiver.method(` call sites, in text
 * order.
 */
module CallGraph {
  import opened Common
  import opened Sorting
  import opened Diagrams
  import Text
  import Decimal

  datatype CallFile = CallFile(
    firstClass: Option<string>,   // the first `class X` in the text
    calls: seq<string>)           // the `X` of every `X.m(` call site

  /** `class_files`: each first class name, mapped to the calls of the last script that declares it first. */
  function ClassFiles(files: seq<CallFile>): map<string, seq<string>>
  {
    if |files| == 0 then map[]
    else
      var cf := ClassFiles(files[..|files| - 1]);
      var f := files[|files| - 1];
      if f.firstClass.Some? then cf[f.firstClass.value := f.calls] else cf
  }

  /** Script `i` declares `c` first, and no later script does. */
  ghost predicate LastNamed(files: seq<CallFile>, i: int, c: string)
  {
    0 <= i < |files| && files[i].firstClass == Some(c) &&
    forall j :: i < j < |files| ==> files[j].firstClass != Some(c)
  }

  /**
   * Only scripts with a class are kept, under their first class name; of
   * several scripts with the same first class, the last one is kept.
   */
  lemma {:induction false} ClassFilesMeaning(files: seq<CallFile>)
    ensures forall c :: c in ClassFiles(files) <==> exists i :: 0 <= i < |files| && files[i].firstClass == Some(c)
    ensures forall c, i :: LastNamed(files, i, c) ==> c in ClassFiles(files) && ClassFiles(files)[c] == files[i].calls
  {
    if |files| > 0 {
      var init := files[..|files| - 1];
      var last := |files| - 1;
      ClassFilesMeaning(init);
      forall c
        ensures c in ClassFiles(files) <==> exists i :: 0 <= i < |files| && files[i].firstClass == Some(c)
      {
        if c in ClassFiles(init) {
          var i :| 0 <= i < |init| && init[i].firstClass == Some(c);
          assert files[i].firstClass == Some(c);
        }
        if exists i :: 0 <= i < |files| && files[i].firstClass == Some(c) {
          var i :| 0 <= i < |files| && files[i].firstClass == Some(c);
          if i < last {
            assert init[i].firstClass == Some(c);
          }
        }
      }
      forall c, i | LastNamed(files, i, c)
        ensures c in ClassFiles(files) && ClassFiles(files)[c] == files[i].calls
      {
        if i < last {
          assert LastNamed(init, i, c);
        }
      }
    }
  }

  /** How many times `x` occurs in `s`. */
  function Occurrences(s: seq<string>, x: string): nat
  {
    if |s| == 0 then 0 else Occurrences(s[..|s| - 1], x) + (if s[|s| - 1] == x then 1 else 0)
  }

  /** A receiver is counted at least once iff it is called at all. */
  lemma {:induction false} OccurrencesPositive(s: seq<string>, x: string)
    ensures Occurrences(s, x) > 0 <==> x in s
    ensures Occurrences(s, x) <= |s|
  {
    if |s| > 0 {
      OccurrencesPositive(s[..|s| - 1], x);
      assert s == s[..|s| - 1] + [s[|s| - 1]];
    }
  }

  /**
   * The edges of the classes in `done`: `(c, t)` for every class `t` other
   * than `c` that `c` calls, weighted by the number of its call sites.
   */
  function EdgesOver(cf: map<string, seq<string>>, done: set<string>): map<(string, string), int>
  {
    map c, t | c in done && c in cf && t in cf && t != c && Occurrences(cf[c], t) > 0 :: (c, t) := Occurrences(cf[c], t)
  }

  /** The edges `collect` counts. */
  function CallEdges(cf: map<string, seq<string>>): map<(string, string), int>
  {
    EdgesOver(cf, cf.Keys)
  }

  /**
   * The edges of one caller, counted call site by call site: a site whose
   * receiver is a known class other than `cls` adds one to `(cls, receiver)`.
   */
  function RowOf(cls: string, calls: seq<string>, classes: set<string>): map<(string, string), int>
  {
    if |calls| == 0 then map[]
    else
      var before := RowOf(cls, calls[..|calls| - 1], classes);
      var t := calls[|calls| - 1];
      if t != cls && t in classes then before[(cls, t) := (if (cls, t) in before then before[(cls, t)] else 0) + 1]
      else before
  }

  /**
   * Counting site by site gives, for every known class other than the
   * caller, the number of its call sites, and holds no other key.
   */
  lemma {:induction false} RowOfMeaning(cls: string, calls: seq<string>, classes: set<string>, p: (string, string))
    ensures p in RowOf(cls, calls, classes) <==> p.0 == cls && p.1 in classes && p.1 != cls && Occurrences(calls, p.1) > 0
    ensures p in RowOf(cls, calls, classes) ==> RowOf(cls, calls, classes)[p] == Occurrences(calls, p.1)
  {
    if |calls| > 0 {
      RowOfMeaning(cls, calls[..|calls| - 1], classes, p);
    }
  }

  /** Adding one caller's row. */
  lemma EdgesOverStep(cf: map<string, seq<string>>, done: set<string>, cls: string)
    requires cls in cf && cls !in done
    ensures EdgesOver(cf, done + {cls}) == EdgesOver(cf, done) + RowOf(cls, cf[cls], cf.Keys)
  {
    var a := EdgesOver(cf, done + {cls});
    var old_ := EdgesOver(cf, done);
    var row := RowOf(cls, cf[cls], cf.Keys);
    var b := old_ + row;
    forall p | p in a || p in b
      ensures p in a && p in b && b[p] == a[p]
    {
      RowOfMeaning(cls, cf[cls], cf.Keys, p);
    }
    assert a == b;
  }

  /**
   * What `collect` counts: `(c, t)` is an edge iff `t` is a kept class
   * other than `c` and the kept script of `c` calls `t`; its weight is the
   * number of those call sites, at least one.
   */
  lemma CallEdgesMeaning(cf: map<string, seq<string>>, c: string, t: string)
    ensures (c, t) in CallEdges(cf) <==> c in cf && t in cf && t != c && t in cf[c]
    ensures (c, t) in CallEdges(cf) ==> 1 <= CallEdges(cf)[(c, t)] == Occurrences(cf[c], t) <= |cf[c]|
  {
    if c in cf {
      OccurrencesPositive(cf[c], t);
    }
  }

  /** One call site: counted when its receiver is a known class other than the caller. */
  method CountCalls(edges: map<(string, string), int>, cls: string, calls: seq<string>, classes: set<string>)
    returns (r: map<(string, string), int>)
    requires forall p :: p in edges ==> p.0 != cls
    ensures r == edges + RowOf(cls, calls, classes)
  {
    r := edges;
    for k := 0 to |calls|
      invariant r == edges + RowOf(cls, calls[..k], classes)
    {
      assert calls[..k + 1][..k] == calls[..k];
      var target := calls[k];
      if target != cls && target in classes {
        var before := if (cls, target) in r then r[(cls, target)] else 0;
        r := r[(cls, target) := before + 1];
      }
    }
    assert calls[..|calls|] == calls;
  }

  /** The first loop of `collect`: keep each script with a class, under its first class name. */
  method KeepClassFiles(files: seq<CallFile>) returns (cf: map<string, seq<string>>)
    ensures cf == ClassFiles(files)
  {
    cf := map[];
    for i := 0 to |files|
      invariant cf == ClassFiles(files[..i])
    {
      assert files[..i + 1][..i] == files[..i];
      if files[i].firstClass.Some? {
        cf := cf[files[i].firstClass.value := files[i].calls];
      }
    }
    assert files[..|files|] == files;
  }

  /**
   * `collect`: the kept classes and the weighted edges between them,
   * whatever order the dictionary of kept scripts is walked in.
   */
  method Collect(files: seq<CallFile>) returns (classes: set<string>, edges: map<(string, string), int>)
    ensures classes == ClassFiles(files).Keys
    ensures edges == CallEdges(ClassFiles(files))
  {
    var cf := KeepClassFiles(files);
    classes := cf.Keys;
    var order := InSomeOrder(cf.Keys);
    edges := map[];
    for n := 0 to |order|
      invariant edges == EdgesOver(cf, Members(order[..n]))
    {
      var cls := order[n];
      var done := Members(order[..n]);
      assert cls !in order[..n];
      assert Members(order[..n + 1]) == done + {cls} by {
        assert order[..n + 1] == order[..n] + [cls];
      }
      EdgesOverStep(cf, done, cls);
      edges := CountCalls(edges, cls, cf[cls], classes);
    }
    assert Members(order[..|order|]) == cf.Keys by {
      assert order[..|order|] == order;
    }
  }

  // ---------------------------------------------------------------------
  // `emit_puml`
  // ---------------------------------------------------------------------

  const Title: string := "High-Level Class Call Graph"
  const Skin: string := "linetype ortho"

  /** An edge's label: nothing for a single call site, ` : <weight>` from two on. */
  function Label(weight: int): string
  {
    if weight < 2 then "" else " : " + Decimal.ToDecimal(weight)
  }

  /** The label is empty below two, and otherwise reads back as the weight. */
  lemma LabelMeaning(weight: int)
    ensures weight < 2 <==> Label(weight) == ""
    ensures weight >= 2 ==>
      |Label(weight)| > 3 && Label(weight)[..3] == " : " &&
      Decimal.AllDigits(Label(weight)[3..]) && Decimal.DigitsValue(Label(weight)[3..]) == weight
  {
    if weight >= 2 {
      var digits := Decimal.NatDigits(weight);
      Decimal.DecimalShape(weight);
      Decimal.DigitsOfNat(weight);
      assert Label(weight)[3..] == digits;
    }
  }

  /** `<src> --> <dst><label>` for an edge and its weight. */
  function EdgeLine(edge: ((string, string), int)): string
  {
    edge.0.0 + " --> " + edge.0.1 + Label(edge.1)
  }

  function EdgeLines(edges: seq<((string, string), int)>): (r: seq<string>)
    ensures |r| == |edges| && forall k :: 0 <= k < |r| ==> r[k] == EdgeLine(edges[k])
  {
    seq(|edges|, k requires 0 <= k < |edges| => EdgeLine(edges[k]))
  }

  /** The diagram for given orders: class nodes, then one arrow per edge. */
  function CallDiagram(classes: seq<string>, edges: seq<((string, string), int)>): seq<string>
  {
    Framed(Title, Skin, Decorated("class ", classes, "") + EdgeLines(edges))
  }

  /** Where each part of the body sits in the diagram. */
  lemma CallLayout(classes: seq<string>, edges: seq<((string, string), int)>)
    ensures var d := CallDiagram(classes, edges);
      && |d| == |classes| + |edges| + 4
      && d[0] == "@startuml" && d[|d| - 1] == "@enduml"
      && (forall k :: 0 <= k < |classes| ==> d[3 + k] == "class " + classes[k])
      && (forall k :: 0 <= k < |edges| ==> d[3 + |classes| + k] == EdgeLine(edges[k]))
  {
    var d := CallDiagram(classes, edges);
    var body := Decorated("class ", classes, "") + EdgeLines(edges);
    assert d[3..|d| - 1] == body;
    forall k | 0 <= k < |classes|
      ensures d[3 + k] == "class " + classes[k]
    {
      assert d[3 + k] == body[k] == "class " + classes[k] + "";
    }
    forall k | 0 <= k < |edges|
      ensures d[3 + |classes| + k] == EdgeLine(edges[k])
    {
      assert d[3 + |classes| + k] == body[|classes| + k];
    }
  }

  /**
   * Whatever order the edge dictionary is iterated in, the diagram has
   * exactly one `class` line per class and one arrow per edge, labelled by
   * its weight, between `@startuml` and `@enduml`.
   */
  lemma CallDiagramCovers(order: seq<string>, edgeOrder: seq<((string, string), int)>,
                          classes: set<string>, edges: map<(string, string), int>)
    requires multiset(order) == multiset(classes) && Listing(edgeOrder, edges.Items)
    ensures var d := CallDiagram(order, edgeOrder);
      && |d| == |classes| + |edges| + 4
      && d[0] == "@startuml" && d[|d| - 1] == "@enduml"
      && (forall c :: c in classes ==> "class " + c in d)
      && (forall p :: p in edges ==> p.0 + " --> " + p.1 + Label(edges[p]) in d)
  {
    var d := CallDiagram(order, edgeOrder);
    CallLayout(order, edgeOrder);
    assert |order| == |multiset(order)| == |multiset(classes)| == |classes|;
    assert |edges.Items| == |edges|;
    forall c | c in classes
      ensures "class " + c in d
    {
      assert c in multiset(order);
      var k :| 0 <= k < |order| && order[k] == c;
      assert d[3 + k] == "class " + c;
    }
    forall p | p in edges
      ensures p.0 + " --> " + p.1 + Label(edges[p]) in d
    {
      assert (p, edges[p]) in edges.Items;
      var k :| 0 <= k < |edgeOrder| && edgeOrder[k] == (p, edges[p]);
      assert d[3 + |order| + k] == EdgeLine((p, edges[p]));
    }
  }

  /** The class nodes: `class <c>` per name, in the given order. */
  method AppendClasses(out: seq<string>, names: seq<string>) returns (r: seq<string>)
    ensures r == out + Decorated("class ", names, "")
  {
    r := out;
    for k := 0 to |names|
      invariant r == out + Decorated("class ", names[..k], "")
    {
      DecoratedSnoc("class ", names, k, "");
      assert "class " + names[k] + "" == "class " + names[k];
      r := r + ["class " + names[k]];
    }
    assert names[..|names|] == names;
  }

  /** The arrows: one per (edge, weight) item, in the given order. */
  method AppendEdges(out: seq<string>, items: seq<((string, string), int)>) returns (r: seq<string>)
    ensures r == out + EdgeLines(items)
  {
    r := out;
    for k := 0 to |items|
      invariant r == out + EdgeLines(items[..k])
    {
      assert EdgeLines(items[..k + 1]) == EdgeLines(items[..k]) + [EdgeLine(items[k])];
      var src, dst, weight := items[k].0.0, items[k].0.1, items[k].1;
      var tag := Label(weight);
      r := r + [src + " --> " + dst + tag];
    }
    assert items[..|items|] == items;
  }

  /**
   * `emit_puml`: the classes in sorted order, then one arrow per edge in
   * the order the dictionary is iterated, framed and joined with newlines.
   */
  method EmitPuml(classes: set<string>, edges: map<(string, string), int>)
    returns (puml: string, ghost sortedClasses: seq<string>, ghost edgeOrder: seq<((string, string), int)>)
    ensures SortedBy(sortedClasses, StrLe) && multiset(sortedClasses) == multiset(classes)
    ensures Listing(edgeOrder, edges.Items)
    ensures puml == Text.Join(CallDiagram(sortedClasses, edgeOrder), "\n")
  {
    var out := ["@startuml", "title " + Title, "skinparam " + Skin];
    var sc := SortedNames(classes);
    out := AppendClasses(out, sc);
    var eo := InSomeOrder(edges.Items);
    out := AppendEdges(out, eo);
    out := out + ["@enduml"];
    assert out == CallDiagram(sc, eo);
    puml := Text.Join(out, "\n");
    sortedClasses, edgeOrder := sc, eo;
  }

  // ---------------------------------------------------------------------
  // The call-collection test
  // ---------------------------------------------------------------------

  /** The three scripts of the call-collection test, as their matches. */
  const CallScripts: seq<CallFile> := [
    CallFile(Some("PlayerController"), ["InputManager", "WeaponManager"]),
    CallFile(Some("WeaponManager"), ["ScoreManager"]),
    CallFile(Some("ScoreManager"), [])]

  /**
   * The call-collection test: the three classes are kept, and there is an
   * edge, since `PlayerController` calls `WeaponManager` once.
   */
  lemma CallScriptsCollected()
    ensures var cf := ClassFiles(CallScripts);
      && "PlayerController" in cf && "WeaponManager" in cf && "ScoreManager" in cf
      && ("PlayerController", "WeaponManager") in CallEdges(cf)
      && CallEdges(cf)[("PlayerController", "WeaponManager")] == 1
      && |CallEdges(cf)| > 0
  {
    var w := CallScripts;
    ClassFilesMeaning(w);
    assert LastNamed(w, 0, "PlayerController");
    assert LastNamed(w, 1, "WeaponManager");
    assert LastNamed(w, 2, "ScoreManager");
    var cf := ClassFiles(w);
    var calls := ["InputManager", "WeaponManager"];
    assert cf["PlayerController"] == calls;
    assert calls[..1][..0] == [] && calls[..2][..1] == calls[..1] && calls[..2] == calls;
    assert Occurrences(calls, "WeaponManager") == 1;
    CallEdgesMeaning(cf, "PlayerController", "WeaponManager");
  }
}
