/**
 * `DevTools/Diagrams/generate_event_flow.py`: which classes raise and
 * which subscribe to the `GameEvents` events, drawn as a PlantUML diagram.
 * A script is given by what the regular expressions find in its stripped
 * text: the name of its first `class`, the events it declares, the events
 * it raises (`GameEvents.E?.Invoke`) and the events it subscribes to
 * (`GameEvents.E +=`), each in text order.
 */
module EventFlow {
  import opened Common
  import opened Sorting
  import opened Diagrams
  import Text

  datatype EventFile = EventFile(
    relPath: string,               // `rel(f, ROOT)`
    firstClass: Option<string>,    // the first `class X` in the text
    declared: seq<string>,         // `public static event T E`
    raised: seq<string>,           // `GameEvents.E?.Invoke`
    subscribed: seq<string>)       // `GameEvents.E +=`

  /** The name a script's links are drawn from: its first class, or else its path. */
  function ClassName(f: EventFile): (r: string)
    ensures f.firstClass.Some? ==> r == f.firstClass.value
    ensures f.firstClass.None? ==> r == f.relPath
  {
    match f.firstClass
    case Some(c) => c
    case None => f.relPath
  }

  /** The (event, class) pairs of one script's matches. */
  function Pairs(events: seq<string>, c: string): (r: set<(string, string)>)
    ensures forall e, d :: (e, d) in r <==> e in events && d == c
  {
    set e | e in events :: (e, c)
  }

  /** The events declared in the scripts. */
  function DeclsOf(files: seq<EventFile>): set<string>
  {
    if |files| == 0 then {} else DeclsOf(files[..|files| - 1]) + Members(files[|files| - 1].declared)
  }

  /** The (event, raising class) pairs of the scripts. */
  function RaisersOf(files: seq<EventFile>): set<(string, string)>
  {
    if |files| == 0 then {}
    else RaisersOf(files[..|files| - 1]) + Pairs(files[|files| - 1].raised, ClassName(files[|files| - 1]))
  }

  /** The (event, subscribing class) pairs of the scripts. */
  function SubscribersOf(files: seq<EventFile>): set<(string, string)>
  {
    if |files| == 0 then {}
    else SubscribersOf(files[..|files| - 1]) + Pairs(files[|files| - 1].subscribed, ClassName(files[|files| - 1]))
  }

  /** Script `i` declares `e`. */
  ghost predicate DeclaresAt(files: seq<EventFile>, i: int, e: string)
  {
    0 <= i < |files| && e in files[i].declared
  }

  /** Script `i` is named `c` and raises `e`. */
  ghost predicate RaisesAt(files: seq<EventFile>, i: int, e: string, c: string)
  {
    0 <= i < |files| && e in files[i].raised && ClassName(files[i]) == c
  }

  /** Script `i` is named `c` and subscribes to `e`. */
  ghost predicate SubscribesAt(files: seq<EventFile>, i: int, e: string, c: string)
  {
    0 <= i < |files| && e in files[i].subscribed && ClassName(files[i]) == c
  }

  /**
   * What `collect` returns: an event is declared iff some script declares
   * it; `c` raises (subscribes to) `e` iff some script named `c` raises
   * (subscribes to) `e`. Nothing is lost to a later script with the same
   * name.
   */
  lemma {:induction false} CollectMeaning(files: seq<EventFile>)
    ensures forall e :: e in DeclsOf(files) <==> exists i :: DeclaresAt(files, i, e)
    ensures forall e, c :: (e, c) in RaisersOf(files) <==> exists i :: RaisesAt(files, i, e, c)
    ensures forall e, c :: (e, c) in SubscribersOf(files) <==> exists i :: SubscribesAt(files, i, e, c)
  {
    if |files| > 0 {
      var init := files[..|files| - 1];
      var last := |files| - 1;
      CollectMeaning(init);
      forall e
        ensures e in DeclsOf(files) <==> exists i :: DeclaresAt(files, i, e)
      {
        if e in DeclsOf(init) {
          var i :| DeclaresAt(init, i, e);
          assert DeclaresAt(files, i, e);
        }
        if e in files[last].declared {
          assert DeclaresAt(files, last, e);
        }
        if exists i :: DeclaresAt(files, i, e) {
          var i :| DeclaresAt(files, i, e);
          if i < last {
            assert DeclaresAt(init, i, e);
          }
        }
      }
      forall e, c
        ensures (e, c) in RaisersOf(files) <==> exists i :: RaisesAt(files, i, e, c)
      {
        if (e, c) in RaisersOf(init) {
          var i :| RaisesAt(init, i, e, c);
          assert RaisesAt(files, i, e, c);
        }
        if (e, c) in Pairs(files[last].raised, ClassName(files[last])) {
          assert RaisesAt(files, last, e, c);
        }
        if exists i :: RaisesAt(files, i, e, c) {
          var i :| RaisesAt(files, i, e, c);
          if i < last {
            assert RaisesAt(init, i, e, c);
          }
        }
      }
      forall e, c
        ensures (e, c) in SubscribersOf(files) <==> exists i :: SubscribesAt(files, i, e, c)
      {
        if (e, c) in SubscribersOf(init) {
          var i :| SubscribesAt(init, i, e, c);
          assert SubscribesAt(files, i, e, c);
        }
        if (e, c) in Pairs(files[last].subscribed, ClassName(files[last])) {
          assert SubscribesAt(files, last, e, c);
        }
        if exists i :: SubscribesAt(files, i, e, c) {
          var i :| SubscribesAt(files, i, e, c);
          if i < last {
            assert SubscribesAt(init, i, e, c);
          }
        }
      }
    }
  }

  /** `for m in RE.finditer(code): target[m.group(1)].add(class_name)`. */
  method AddPairs(acc: set<(string, string)>, events: seq<string>, c: string) returns (r: set<(string, string)>)
    ensures r == acc + Pairs(events, c)
  {
    r := acc;
    for k := 0 to |events|
      invariant r == acc + Pairs(events[..k], c)
    {
      assert events[..k + 1] == events[..k] + [events[k]];
      r := r + {(events[k], c)};
    }
    assert events[..|events|] == events;
  }

  /** `for m in EVENT_DECL_RE.finditer(code): decls.add(m.group(1))`. */
  method AddNames(acc: set<string>, names: seq<string>) returns (r: set<string>)
    ensures r == acc + Members(names)
  {
    r := acc;
    for k := 0 to |names|
      invariant r == acc + Members(names[..k])
    {
      assert names[..k + 1] == names[..k] + [names[k]];
      r := r + {names[k]};
    }
    assert names[..|names|] == names;
  }

  /** `collect`: the declared events and the raise and subscribe pairs of every script, in file order. */
  method Collect(files: seq<EventFile>)
    returns (decls: set<string>, producers: set<(string, string)>, consumers: set<(string, string)>)
    ensures decls == DeclsOf(files)
    ensures producers == RaisersOf(files)
    ensures consumers == SubscribersOf(files)
  {
    decls, producers, consumers := {}, {}, {};
    for i := 0 to |files|
      invariant decls == DeclsOf(files[..i])
      invariant producers == RaisersOf(files[..i])
      invariant consumers == SubscribersOf(files[..i])
    {
      assert files[..i + 1][..i] == files[..i];
      var className := ClassName(files[i]);
      decls := AddNames(decls, files[i].declared);
      producers := AddPairs(producers, files[i].raised, className);
      consumers := AddPairs(consumers, files[i].subscribed, className);
    }
    assert files[..|files|] == files;
  }

  // ---------------------------------------------------------------------
  // `emit_puml`
  // ---------------------------------------------------------------------

  const Title: string := "Game Event Flow"
  const Skin: string := "linetype ortho"
  /** What follows an event's name in its node line. */
  const EventStereotype: string := " << (E,#FFCC00) Event >>"

  /** `<class> --> <event> : raises` for an (event, class) pair. */
  function RaisesLine(pair: (string, string)): string
  {
    pair.1 + " --> " + pair.0 + " : raises"
  }

  /** `<event> --> <class> : notifies` for an (event, class) pair. */
  function NotifiesLine(pair: (string, string)): string
  {
    pair.0 + " --> " + pair.1 + " : notifies"
  }

  function RaisesLines(pairs: seq<(string, string)>): (r: seq<string>)
    ensures |r| == |pairs| && forall k :: 0 <= k < |r| ==> r[k] == RaisesLine(pairs[k])
  {
    seq(|pairs|, k requires 0 <= k < |pairs| => RaisesLine(pairs[k]))
  }

  function NotifiesLines(pairs: seq<(string, string)>): (r: seq<string>)
    ensures |r| == |pairs| && forall k :: 0 <= k < |r| ==> r[k] == NotifiesLine(pairs[k])
  {
    seq(|pairs|, k requires 0 <= k < |pairs| => NotifiesLine(pairs[k]))
  }

  /** The diagram for given orders: event nodes, then the raise links, then the notify links. */
  function EventDiagram(events: seq<string>, raisers: seq<(string, string)>, subscribers: seq<(string, string)>): seq<string>
  {
    Framed(Title, Skin, Decorated("class ", events, EventStereotype) + RaisesLines(raisers) + NotifiesLines(subscribers))
  }

  /** Where each part of the body sits in the diagram. */
  lemma EventLayout(events: seq<string>, raisers: seq<(string, string)>, subscribers: seq<(string, string)>)
    ensures var d := EventDiagram(events, raisers, subscribers);
      && |d| == |events| + |raisers| + |subscribers| + 4
      && d[0] == "@startuml" && d[|d| - 1] == "@enduml"
      && (forall k :: 0 <= k < |events| ==> d[3 + k] == "class " + events[k] + EventStereotype)
      && (forall k :: 0 <= k < |raisers| ==> d[3 + |events| + k] == RaisesLine(raisers[k]))
      && (forall k :: 0 <= k < |subscribers| ==> d[3 + |events| + |raisers| + k] == NotifiesLine(subscribers[k]))
  {
    var d := EventDiagram(events, raisers, subscribers);
    var body := Decorated("class ", events, EventStereotype) + RaisesLines(raisers) + NotifiesLines(subscribers);
    assert d[3..|d| - 1] == body;
    forall k | 0 <= k < |events|
      ensures d[3 + k] == "class " + events[k] + EventStereotype
    {
      assert d[3 + k] == body[k];
    }
    forall k | 0 <= k < |raisers|
      ensures d[3 + |events| + k] == RaisesLine(raisers[k])
    {
      assert d[3 + |events| + k] == body[|events| + k];
    }
    forall k | 0 <= k < |subscribers|
      ensures d[3 + |events| + |raisers| + k] == NotifiesLine(subscribers[k])
    {
      assert d[3 + |events| + |raisers| + k] == body[|events| + |raisers| + k];
    }
  }

  /**
   * Whatever order the pair sets are iterated in, the diagram has exactly
   * one node line per declared event, one raise link per (event, raiser)
   * pair and one notify link per (event, subscriber) pair, between
   * `@startuml` and `@enduml`.
   */
  lemma EventDiagramCovers(events: seq<string>, raisers: seq<(string, string)>, subscribers: seq<(string, string)>,
                           decls: set<string>, producers: set<(string, string)>, consumers: set<(string, string)>)
    requires multiset(events) == multiset(decls)
    requires Listing(raisers, producers) && Listing(subscribers, consumers)
    ensures var d := EventDiagram(events, raisers, subscribers);
      && |d| == |decls| + |producers| + |consumers| + 4
      && d[0] == "@startuml" && d[|d| - 1] == "@enduml"
      && (forall e :: e in decls ==> "class " + e + EventStereotype in d)
      && (forall pr :: pr in producers ==> RaisesLine(pr) in d)
      && (forall pr :: pr in consumers ==> NotifiesLine(pr) in d)
  {
    var d := EventDiagram(events, raisers, subscribers);
    EventLayout(events, raisers, subscribers);
    assert |events| == |multiset(events)| == |multiset(decls)| == |decls|;
    forall e | e in decls
      ensures "class " + e + EventStereotype in d
    {
      assert e in multiset(events);
      var k :| 0 <= k < |events| && events[k] == e;
      assert d[3 + k] == "class " + e + EventStereotype;
    }
    forall pr | pr in producers
      ensures RaisesLine(pr) in d
    {
      var k :| 0 <= k < |raisers| && raisers[k] == pr;
      assert d[3 + |events| + k] == RaisesLine(pr);
    }
    forall pr | pr in consumers
      ensures NotifiesLine(pr) in d
    {
      var k :| 0 <= k < |subscribers| && subscribers[k] == pr;
      assert d[3 + |events| + |raisers| + k] == NotifiesLine(pr);
    }
  }

  /** The links of one loop: one line per pair, in the given order. */
  method AppendLinks(out: seq<string>, pairs: seq<(string, string)>, raises: bool) returns (r: seq<string>)
    ensures raises ==> r == out + RaisesLines(pairs)
    ensures !raises ==> r == out + NotifiesLines(pairs)
  {
    r := out;
    for k := 0 to |pairs|
      invariant raises ==> r == out + RaisesLines(pairs[..k])
      invariant !raises ==> r == out + NotifiesLines(pairs[..k])
    {
      assert RaisesLines(pairs[..k + 1]) == RaisesLines(pairs[..k]) + [RaisesLine(pairs[k])];
      assert NotifiesLines(pairs[..k + 1]) == NotifiesLines(pairs[..k]) + [NotifiesLine(pairs[k])];
      var c := pairs[k].1;
      var e := pairs[k].0;
      if raises {
        r := r + [c + " --> " + e + " : raises"];
      } else {
        r := r + [e + " --> " + c + " : notifies"];
      }
    }
    assert pairs[..|pairs|] == pairs;
  }

  /** The event nodes: `class E << (E,#FFCC00) Event >>` per name, in the given order. */
  method AppendEvents(out: seq<string>, events: seq<string>) returns (r: seq<string>)
    ensures r == out + Decorated("class ", events, EventStereotype)
  {
    r := out;
    for k := 0 to |events|
      invariant r == out + Decorated("class ", events[..k], EventStereotype)
    {
      DecoratedSnoc("class ", events, k, EventStereotype);
      r := r + ["class " + events[k] + EventStereotype];
    }
    assert events[..|events|] == events;
  }

  /** The diagram as `emit_puml` assembles it: header lines, event nodes, raise links, notify links, closing line. */
  lemma EventDiagramAssembled(events: seq<string>, raisers: seq<(string, string)>, subscribers: seq<(string, string)>)
    ensures EventDiagram(events, raisers, subscribers)
      == ["@startuml", "title " + Title, "skinparam " + Skin] + Decorated("class ", events, EventStereotype)
         + RaisesLines(raisers) + NotifiesLines(subscribers) + ["@enduml"]
  {
    var h := ["@startuml", "title " + Title, "skinparam " + Skin];
    var a := Decorated("class ", events, EventStereotype);
    var b := RaisesLines(raisers);
    var c := NotifiesLines(subscribers);
    assert h + (a + b + c) + ["@enduml"] == h + a + b + c + ["@enduml"];
  }

  /**
   * `emit_puml`: the events in sorted order, then one raise link per
   * (event, class) producer pair and one notify link per consumer pair,
   * in the order the dictionaries and their sets are iterated, framed and
   * joined with newlines.
   */
  method EmitPuml(decls: set<string>, producers: set<(string, string)>, consumers: set<(string, string)>)
    returns (puml: string, ghost sortedEvents: seq<string>,
             ghost raiseOrder: seq<(string, string)>, ghost notifyOrder: seq<(string, string)>)
    ensures SortedBy(sortedEvents, StrLe) && multiset(sortedEvents) == multiset(decls)
    ensures Listing(raiseOrder, producers) && Listing(notifyOrder, consumers)
    ensures puml == Text.Join(EventDiagram(sortedEvents, raiseOrder, notifyOrder), "\n")
  {
    var out := ["@startuml", "title " + Title, "skinparam " + Skin];
    var se := SortedNames(decls);
    out := AppendEvents(out, se);
    var ro := InSomeOrder(producers);
    out := AppendLinks(out, ro, true);
    var no := InSomeOrder(consumers);
    out := AppendLinks(out, no, false);
    out := out + ["@enduml"];
    EventDiagramAssembled(se, ro, no);
    puml := Text.Join(out, "\n");
    sortedEvents, raiseOrder, notifyOrder := se, ro, no;
  }

  // ---------------------------------------------------------------------
  // The event tests
  // ---------------------------------------------------------------------

  /** The three scripts of the event-collection test, as their matches. */
  const EventScripts: seq<EventFile> := [
    EventFile("GameEvents.cs", Some("GameEvents"), ["OnPlayerDeath", "OnScoreChanged", "OnGameOver"], [], []),
    EventFile("ScoreManager.cs", Some("ScoreManager"), [], ["OnScoreChanged", "OnGameOver"], []),
    EventFile("UIManager.cs", Some("UIManager"), [], [], ["OnScoreChanged", "OnPlayerDeath"])]

  /**
   * The event-collection test: the three events are declared,
   * `ScoreManager` raises two of them and `UIManager` subscribes to two.
   */
  lemma EventScriptsCollected()
    ensures var decls := DeclsOf(EventScripts);
      "OnPlayerDeath" in decls && "OnScoreChanged" in decls && "OnGameOver" in decls
    ensures var raisers := RaisersOf(EventScripts);
      ("OnScoreChanged", "ScoreManager") in raisers && ("OnGameOver", "ScoreManager") in raisers
    ensures var subscribers := SubscribersOf(EventScripts);
      ("OnScoreChanged", "UIManager") in subscribers && ("OnPlayerDeath", "UIManager") in subscribers
  {
    var w := EventScripts;
    CollectMeaning(w);
    assert DeclaresAt(w, 0, "OnPlayerDeath") && DeclaresAt(w, 0, "OnScoreChanged") && DeclaresAt(w, 0, "OnGameOver");
    assert RaisesAt(w, 1, "OnScoreChanged", "ScoreManager") && RaisesAt(w, 1, "OnGameOver", "ScoreManager");
    assert SubscribesAt(w, 2, "OnScoreChanged", "UIManager") && SubscribesAt(w, 2, "OnPlayerDeath", "UIManager");
  }

  /**
   * The event-diagram test: two events, one raiser and one subscriber
   * each; whatever the iteration order, the diagram is framed, has the
   * `OnPlayerDeath` node, its raise link from `PlayerHealth` and its notify
   * link to `UIManager`.
   */
  lemma EventPumlLines(events: seq<string>, raisers: seq<(string, string)>, subscribers: seq<(string, string)>)
    requires multiset(events) == multiset({"OnPlayerDeath", "OnScoreChanged"})
    requires Listing(raisers, {("OnPlayerDeath", "PlayerHealth"), ("OnScoreChanged", "ScoreManager")})
    requires Listing(subscribers, {("OnPlayerDeath", "UIManager"), ("OnScoreChanged", "ScoreDisplay")})
    ensures var d := EventDiagram(events, raisers, subscribers);
      && d[0] == "@startuml" && d[|d| - 1] == "@enduml" && |d| == 10
      && "class " + "OnPlayerDeath" + " << (E,#FFCC00) Event >>" in d
      && "PlayerHealth" + " --> " + "OnPlayerDeath" + " : raises" in d
      && "OnPlayerDeath" + " --> " + "UIManager" + " : notifies" in d
  {
    TwoEventDiagram(events, raisers, subscribers, "OnPlayerDeath", "OnScoreChanged",
                    "PlayerHealth", "ScoreManager", "UIManager", "ScoreDisplay");
  }

  /** Two events, each with one raiser and one subscriber: the diagram has ten lines, among them the first event's node and links. */
  lemma TwoEventDiagram(events: seq<string>, raisers: seq<(string, string)>, subscribers: seq<(string, string)>,
                        e1: string, e2: string, p1: string, p2: string, c1: string, c2: string)
    requires e1 != e2
    requires multiset(events) == multiset({e1, e2})
    requires Listing(raisers, {(e1, p1), (e2, p2)})
    requires Listing(subscribers, {(e1, c1), (e2, c2)})
    ensures var d := EventDiagram(events, raisers, subscribers);
      && d[0] == "@startuml" && d[|d| - 1] == "@enduml" && |d| == 10
      && "class " + e1 + EventStereotype in d
      && RaisesLine((e1, p1)) in d
      && NotifiesLine((e1, c1)) in d
  {
    var decls := {e1, e2};
    var producers := {(e1, p1), (e2, p2)};
    var consumers := {(e1, c1), (e2, c2)};
    assert |decls| == 2 && |producers| == 2 && |consumers| == 2;
    EventDiagramCovers(events, raisers, subscribers, decls, producers, consumers);
    assert e1 in decls && (e1, p1) in producers && (e1, c1) in consumers;
  }
}
