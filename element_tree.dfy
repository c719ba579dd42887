/**
 * The part of the ElementTree API that the extractor uses, over an abstract
 * element tree. Tags are namespace-qualified: an element matches a query when
 * both its namespace URI and its local name are equal to the query's.
 */
module ElementTree {
  import opened Wrappers

  /**
   * An XML element: namespace URI and local name of its tag, its attributes,
   * its `.text` (the text before the first child; `None` when there is none)
   * and its child elements in document order.
   */
  datatype Element = Element(
    ns: string,
    tag: string,
    attrib: map<string, string>,
    text: Option<string>,
    children: seq<Element>)

  predicate Matches(e: Element, ns: string, tag: string) {
    e.ns == ns && e.tag == tag
  }

  /** `e.get(key, default)`: the attribute's value, or `default` when it is absent. */
  function Get(e: Element, key: string, default: string): string {
    if key in e.attrib then e.attrib[key] else default
  }

  /** The first element of a sequence, if any. */
  function First(s: seq<Element>): Option<Element> {
    if s == [] then None else Some(s[0])
  }

  /** The elements of `s` that match, in their order in `s`. */
  function Filter(s: seq<Element>, ns: string, tag: string): seq<Element> {
    if s == [] then []
    else (if Matches(s[0], ns, tag) then [s[0]] else []) + Filter(s[1..], ns, tag)
  }

  /** Filtering keeps exactly the matching elements, and never lengthens. */
  lemma {:induction false} FilterMembers(s: seq<Element>, ns: string, tag: string)
    ensures |Filter(s, ns, tag)| <= |s|
    ensures forall x :: x in Filter(s, ns, tag) <==> x in s && Matches(x, ns, tag)
  {
    if s != [] {
      FilterMembers(s[1..], ns, tag);
      assert forall x :: x in s <==> x == s[0] || x in s[1..];
    }
  }

  lemma {:induction false} FilterConcat(a: seq<Element>, b: seq<Element>, ns: string, tag: string)
    ensures Filter(a + b, ns, tag) == Filter(a, ns, tag) + Filter(b, ns, tag)
  {
    if a == [] {
      assert a + b == b;
    } else {
      assert (a + b)[1..] == a[1..] + b;
      FilterConcat(a[1..], b, ns, tag);
    }
  }

  /** Linear search for the first matching element of `cs`. */
  function FindIn(cs: seq<Element>, ns: string, tag: string): Option<Element> {
    if cs == [] then None
    else if Matches(cs[0], ns, tag) then Some(cs[0])
    else FindIn(cs[1..], ns, tag)
  }

  /** `e.find('{ns}tag')`: the first direct child of `e` that matches. */
  function Find(e: Element, ns: string, tag: string): Option<Element> {
    FindIn(e.children, ns, tag)
  }

  lemma {:induction false} FindInIsFirst(cs: seq<Element>, ns: string, tag: string)
    ensures FindIn(cs, ns, tag) == First(Filter(cs, ns, tag))
  {
    if cs != [] {
      FindInIsFirst(cs[1..], ns, tag);
    }
  }

  /** `find` on a child tag yields the first matching child; `None` exactly when no child matches. */
  lemma FindIsFirstChild(e: Element, ns: string, tag: string)
    ensures Find(e, ns, tag) == First(Filter(e.children, ns, tag))
    ensures Find(e, ns, tag).Some? ==>
      Find(e, ns, tag).value in e.children && Matches(Find(e, ns, tag).value, ns, tag)
    ensures Find(e, ns, tag).None? <==> forall c :: c in e.children ==> !Matches(c, ns, tag)
  {
    FindInIsFirst(e.children, ns, tag);
    FilterMembers(e.children, ns, tag);
  }

  /** Every element strictly below `e`, in document (pre-)order; `e` itself excluded. */
  function Descendants(e: Element): seq<Element>
    decreases e
  {
    DescendantsIn(e.children)
  }

  /** The elements of the forest `cs` and all their descendants, in document order. */
  function DescendantsIn(cs: seq<Element>): seq<Element>
    decreases cs
  {
    if cs == [] then []
    else [cs[0]] + Descendants(cs[0]) + DescendantsIn(cs[1..])
  }

  /** `e.findall('.//{ns}tag')`: every matching element strictly below `e`, in document order. */
  function FindAll(e: Element, ns: string, tag: string): seq<Element> {
    Filter(Descendants(e), ns, tag)
  }

  /** `e.find('.//{ns}tag')`: depth-first search for a matching element strictly below `e`. */
  function FindDesc(e: Element, ns: string, tag: string): Option<Element>
    decreases e
  {
    FindDescIn(e.children, ns, tag)
  }

  /** Depth-first search of the forest `cs`: each tree's root, then its subtree, then the next tree. */
  function FindDescIn(cs: seq<Element>, ns: string, tag: string): Option<Element>
    decreases cs
  {
    if cs == [] then None
    else if Matches(cs[0], ns, tag) then Some(cs[0])
    else match FindDesc(cs[0], ns, tag) {
      case Some(d) => Some(d)
      case None => FindDescIn(cs[1..], ns, tag)
    }
  }

  /** The search `find('.//…')` returns the first element `findall('.//…')` lists. */
  lemma {:induction false} FindDescIsFirst(e: Element, ns: string, tag: string)
    ensures FindDesc(e, ns, tag) == First(FindAll(e, ns, tag))
    decreases e
  {
    FindDescInIsFirst(e.children, ns, tag);
  }

  lemma {:induction false} FindDescInIsFirst(cs: seq<Element>, ns: string, tag: string)
    ensures FindDescIn(cs, ns, tag) == First(Filter(DescendantsIn(cs), ns, tag))
    decreases cs
  {
    if cs != [] {
      var head := if Matches(cs[0], ns, tag) then [cs[0]] else [];
      var below := Filter(Descendants(cs[0]), ns, tag);
      var rest := Filter(DescendantsIn(cs[1..]), ns, tag);
      FilterConcat([cs[0]] + Descendants(cs[0]), DescendantsIn(cs[1..]), ns, tag);
      FilterConcat([cs[0]], Descendants(cs[0]), ns, tag);
      assert Filter([cs[0]], ns, tag) == head;
      assert Filter(DescendantsIn(cs), ns, tag) == head + below + rest;
      FindDescIsFirst(cs[0], ns, tag);
      FindDescInIsFirst(cs[1..], ns, tag);
    }
  }
}
