/** An immutable parsed HTML document and the search operations of the HTML parser
    library that the scraper calls: `find`, `find_all` and `get_text`. */
module Html {
  import opened Wrappers
  import Strings

  /** A document node. An element has a tag name, its (multi-valued) `class` attribute,
      its other attributes and its children; text nodes hold character data. The document
      itself is represented as an element whose children are the top-level nodes. */
  datatype Node =
    | Element(tag: string, classes: seq<string>, attrs: map<string, string>, children: seq<Node>)
    | Text(content: string)

  /** The filter `find(tag, class_=cls)` applies: an element with that tag name that, when a
      class is given, carries it among its classes. Text nodes never match. */
  predicate Matches(n: Node, tag: string, cls: Option<string>) {
    n.Element? && n.tag == tag && (cls.Some? ==> cls.value in n.classes)
  }

  /** Every node strictly below `n`, in document order (pre-order). */
  function Descendants(n: Node): seq<Node>
    decreases n, 1
  {
    if n.Text? then [] else DescendantsIn(n.children)
  }

  /** Every node of the forest `ns` together with all nodes below them, in document order. */
  function DescendantsIn(ns: seq<Node>): seq<Node>
    decreases ns, 0
  {
    if ns == [] then [] else [ns[0]] + Descendants(ns[0]) + DescendantsIn(ns[1..])
  }

  /** The nodes of `ns` that match, in their order. */
  function Select(ns: seq<Node>, tag: string, cls: Option<string>): (r: seq<Node>)
    ensures forall i :: 0 <= i < |r| ==> Matches(r[i], tag, cls) && r[i] in ns
    ensures forall x :: x in ns && Matches(x, tag, cls) ==> x in r
  {
    if ns == [] then []
    else (if Matches(ns[0], tag, cls) then [ns[0]] else []) + Select(ns[1..], tag, cls)
  }

  /** `n.find_all(tag, class_=cls)`: a walk over the tree below `n` collecting every match. */
  function FindAll(n: Node, tag: string, cls: Option<string>): (r: seq<Node>)
    ensures forall i :: 0 <= i < |r| ==> Matches(r[i], tag, cls)
    decreases n, 1
  {
    if n.Text? then [] else FindAllIn(n.children, tag, cls)
  }

  function FindAllIn(ns: seq<Node>, tag: string, cls: Option<string>): (r: seq<Node>)
    ensures forall i :: 0 <= i < |r| ==> Matches(r[i], tag, cls)
    decreases ns, 0
  {
    if ns == [] then []
    else
      (if Matches(ns[0], tag, cls) then [ns[0]] else [])
      + FindAll(ns[0], tag, cls) + FindAllIn(ns[1..], tag, cls)
  }

  /** `n.find(tag, class_=cls)`: a walk over the tree below `n` that stops at the first match. */
  function Find(n: Node, tag: string, cls: Option<string>): (r: Option<Node>)
    ensures r.Some? ==> Matches(r.value, tag, cls)
    decreases n, 1
  {
    if n.Text? then None else FindIn(n.children, tag, cls)
  }

  function FindIn(ns: seq<Node>, tag: string, cls: Option<string>): (r: Option<Node>)
    ensures r.Some? ==> Matches(r.value, tag, cls)
    decreases ns, 0
  {
    if ns == [] then None
    else if Matches(ns[0], tag, cls) then Some(ns[0])
    else
      var below := Find(ns[0], tag, cls);
      if below.Some? then below else FindIn(ns[1..], tag, cls)
  }

  /** `n.get_text()`: the text nodes below `n` concatenated in document order. */
  function GetText(n: Node): string
    decreases n, 1
  {
    if n.Text? then n.content else TextIn(n.children)
  }

  function TextIn(ns: seq<Node>): string
    decreases ns, 0
  {
    if ns == [] then "" else GetText(ns[0]) + TextIn(ns[1..])
  }

  /** `stripped_text(node)`: `None` for an absent node, otherwise its text without
      surrounding whitespace. */
  function StrippedText(node: Option<Node>): (r: Option<string>)
    ensures r.None? <==> node.None?
    ensures r.Some? ==> Strings.NoEdgeSpace(r.value) && |r.value| <= |GetText(node.value)|
    ensures r.Some? ==> (r.value == [] <==> Strings.AllSpace(GetText(node.value)))
  {
    match node
    case None => None
    case Some(n) =>
      Strings.StripSpec(GetText(n));
      Some(Strings.Strip(GetText(n)))
  }

  /** `find_strip(container, tag, cls)`: the stripped text of the first match below
      `container`, `None` when there is none. */
  function FindStrip(container: Node, tag: string, cls: string): (r: Option<string>)
    ensures r.None? <==> Find(container, tag, Some(cls)).None?
    ensures r.Some? ==> Strings.NoEdgeSpace(r.value)
  {
    StrippedText(Find(container, tag, Some(cls)))
  }

  lemma SelectAppend(a: seq<Node>, b: seq<Node>, tag: string, cls: Option<string>)
    ensures Select(a + b, tag, cls) == Select(a, tag, cls) + Select(b, tag, cls)
  {
    if a == [] {
      assert a + b == b;
    } else {
      assert (a + b)[1..] == a[1..] + b;
      SelectAppend(a[1..], b, tag, cls);
    }
  }

  /** `find_all` returns exactly the matching descendants, in document order. */
  lemma {:induction false} FindAllSelectsDescendants(n: Node, tag: string, cls: Option<string>)
    ensures FindAll(n, tag, cls) == Select(Descendants(n), tag, cls)
    decreases n, 1
  {
    if n.Element? {
      FindAllInSelects(n.children, tag, cls);
    }
  }

  lemma {:induction false} FindAllInSelects(ns: seq<Node>, tag: string, cls: Option<string>)
    ensures FindAllIn(ns, tag, cls) == Select(DescendantsIn(ns), tag, cls)
    decreases ns, 0
  {
    if ns != [] {
      FindAllSelectsDescendants(ns[0], tag, cls);
      FindAllInSelects(ns[1..], tag, cls);
      SelectAppend([ns[0]], Descendants(ns[0]), tag, cls);
      SelectAppend([ns[0]] + Descendants(ns[0]), DescendantsIn(ns[1..]), tag, cls);
    }
  }

  /** `find` returns the first element `find_all` would return, and `None` exactly when
      `find_all` finds nothing. */
  lemma {:induction false} FindIsFirstOfFindAll(n: Node, tag: string, cls: Option<string>)
    ensures Find(n, tag, cls).None? <==> FindAll(n, tag, cls) == []
    ensures Find(n, tag, cls).Some? ==> Find(n, tag, cls).value == FindAll(n, tag, cls)[0]
    decreases n, 1
  {
    if n.Element? {
      FindInIsFirst(n.children, tag, cls);
    }
  }

  lemma {:induction false} FindInIsFirst(ns: seq<Node>, tag: string, cls: Option<string>)
    ensures FindIn(ns, tag, cls).None? <==> FindAllIn(ns, tag, cls) == []
    ensures FindIn(ns, tag, cls).Some? ==> FindIn(ns, tag, cls).value == FindAllIn(ns, tag, cls)[0]
    decreases ns, 0
  {
    if ns != [] && !Matches(ns[0], tag, cls) {
      FindIsFirstOfFindAll(ns[0], tag, cls);
      FindInIsFirst(ns[1..], tag, cls);
    }
  }
}
