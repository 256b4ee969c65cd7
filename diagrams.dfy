/**
 * What the three PlantUML generators under `DevTools/Diagrams` share:
 * Python's `sorted` on a set of names, iteration over a set or a dict (in
 * an order the model leaves open), `str.strip`, and the frame every
 * diagram is written in. A `defaultdict(set)` that is only ever added to
 * is modelled as the set of its (key, member) pairs.
 */
module Diagrams {
  import opened Sorting
  import Text

  /** `str.isspace` on one character. */
  predicate IsPyWhite(c: char)
  {
    || '\t' <= c <= '\r' || '\U{001C}' <= c <= ' ' || c == '\U{0085}' || c == '\U{00A0}' || c == '\U{1680}'
    || '\U{2000}' <= c <= '\U{200A}' || c == '\U{2028}' || c == '\U{2029}' || c == '\U{202F}'
    || c == '\U{205F}' || c == '\U{3000}'
  }

  /** The characters `str.strip()` removes. */
  const PyWhite: set<char> := set c: char | '\t' <= c <= '\U{3000}' && IsPyWhite(c)

  /** `s.strip()`. */
  function Strip(s: string): string
  {
    Text.Trim(s, PyWhite)
  }

  /** The elements of a sequence. */
  function Members(s: seq<string>): (r: set<string>)
    ensures forall x :: x in r <==> x in s
  {
    set x | x in s
  }

  /** No element occurs twice. */
  predicate Distinct<T(==)>(s: seq<T>)
  {
    forall i, j :: 0 <= i < j < |s| ==> s[i] != s[j]
  }

  /** `sorted(names)` for a set: every name once, in code-point order. */
  method SortedNames(names: set<string>) returns (r: seq<string>)
    ensures SortedBy(r, StrLe)
    ensures multiset(r) == multiset(names)
    ensures |r| == |names| && forall x :: x in r <==> x in names
  {
    var items: seq<string> := [];
    var remaining := names;
    while remaining != {}
      invariant remaining <= names
      invariant multiset(items) + multiset(remaining) == multiset(names)
      decreases |remaining|
    {
      var x :| x in remaining;
      items := items + [x];
      remaining := remaining - {x};
    }
    r := SortStrings(items);
    assert forall x :: x in r <==> x in multiset(r);
  }

  /** Every element of the set once, in some order. */
  ghost predicate Listing<T(!new)>(order: seq<T>, s: set<T>)
  {
    Distinct(order) && |order| == |s| && forall x :: x in order <==> x in s
  }

  /**
   * A Python set or dict iterated with `for`: every element once, in an
   * order the model leaves open.
   */
  method InSomeOrder<T(==, !new)>(s: set<T>) returns (order: seq<T>)
    ensures Listing(order, s)
  {
    order := [];
    var remaining := s;
    while remaining != {}
      invariant remaining <= s
      invariant Distinct(order)
      invariant forall x :: x in order <==> x in s && x !in remaining
      invariant |order| + |remaining| == |s|
      decreases |remaining|
    {
      var x :| x in remaining;
      order := order + [x];
      remaining := remaining - {x};
    }
  }

  /** One line per name, each behind the same prefix and before the same suffix. */
  function Decorated(prefix: string, names: seq<string>, suffix: string): (r: seq<string>)
    ensures |r| == |names|
    ensures forall k :: 0 <= k < |r| ==> r[k] == prefix + names[k] + suffix
  {
    seq(|names|, k requires 0 <= k < |names| => prefix + names[k] + suffix)
  }

  /** `Decorated` over one more name. */
  lemma DecoratedSnoc(prefix: string, names: seq<string>, k: int, suffix: string)
    requires 0 <= k < |names|
    ensures Decorated(prefix, names[..k + 1], suffix) == Decorated(prefix, names[..k], suffix) + [prefix + names[k] + suffix]
  {
  }

  /** A diagram's lines: the opening marker, a title, one skin parameter, the body, the closing marker. */
  function Framed(title: string, skin: string, body: seq<string>): (r: seq<string>)
    ensures |r| == |body| + 4
    ensures r[0] == "@startuml" && r[|r| - 1] == "@enduml"
    ensures r[3..|r| - 1] == body
  {
    ["@startuml", "title " + title, "skinparam " + skin] + body + ["@enduml"]
  }
}
