/**
 * The XML the chart reads and writes: a DOM tree of namespaced elements
 * (what KXmlElement/QDomElement give the loaders) and KXmlWriter, the
 * streaming writer the savers append to. The writer is modelled by the tree
 * it denotes: a stack of elements that are started but not yet ended, and
 * the top-level nodes already completed.
 */
module Xml {
  import opened Base

  datatype Namespace = TableNS | OfficeNS | TextNS | ChartNS | OtherNS(uri: string)

  datatype QName = QName(ns: Namespace, local: string)

  datatype Node =
    | Text(content: string)
    | Element(name: QName, attrs: map<QName, string>, children: seq<Node>)

  predicate IsElement(n: Node, q: QName) {
    n.Element? && n.name == q
  }

  /** `attributeNS(ns, name)`: the attribute's value, or the empty string when it is absent. */
  function AttributeNS(n: Node, q: QName): string {
    if n.Element? && q in n.attrs then n.attrs[q] else ""
  }

  predicate HasAttributeNS(n: Node, q: QName) {
    n.Element? && q in n.attrs
  }

  /** `namedItemNS(ns, name)`: the first child element with that name, if any. */
  function NamedItemNS(cs: seq<Node>, q: QName): (r: Option<Node>)
    ensures r.Some? ==> IsElement(r.value, q)
    ensures r.None? <==> forall i :: 0 <= i < |cs| ==> !IsElement(cs[i], q)
  {
    if cs == [] then None
    else if IsElement(cs[0], q) then Some(cs[0])
    else NamedItemNS(cs[1..], q)
  }

  /** `text()`: the concatenated text of all descendant text nodes, in document order. */
  function TextOf(n: Node): string
    decreases n
  {
    match n
    case Text(s) => s
    case Element(_, _, cs) => TextsOf(cs)
  }

  function TextsOf(cs: seq<Node>): string
    decreases cs
  {
    if cs == [] then "" else TextOf(cs[0]) + TextsOf(cs[1..])
  }

  /** The text of an element whose only child is one text node is that node's text. */
  lemma TextOfLeaf(q: QName, attrs: map<QName, string>, text: string)
    ensures TextOf(Element(q, attrs, [Text(text)])) == text
  {
    var cs := [Text(text)];
    assert cs[1..] == [];
    assert TextsOf(cs) == TextOf(cs[0]) + TextsOf(cs[1..]);
    assert text + "" == text;
  }

  predicate AllElements(open: seq<Node>) {
    forall i :: 0 <= i < |open| ==> open[i].Element?
  }

  function AppendChild(e: Node, c: Node): Node
    requires e.Element?
  {
    e.(children := e.children + [c])
  }

  function SetAttribute(e: Node, q: QName, v: string): Node
    requires e.Element?
  {
    e.(attrs := e.attrs[q := v])
  }

  /** Where a finished node goes: into the innermost open element, or to the top level. */
  function Emit(open: seq<Node>, closed: seq<Node>, n: Node): (r: (seq<Node>, seq<Node>))
    requires AllElements(open)
    ensures AllElements(r.0) && |r.0| == |open|
  {
    if open == [] then (open, closed + [n])
    else (open[..|open| - 1] + [AppendChild(open[|open| - 1], n)], closed)
  }

  class XmlWriter {
    /** Elements started and not yet ended, innermost last. */
    var open: seq<Node>
    /** Top-level nodes already completed. */
    var closed: seq<Node>

    ghost predicate Valid()
      reads this
    {
      AllElements(open)
    }

    constructor ()
      ensures Valid() && open == [] && closed == []
    {
      open := [];
      closed := [];
    }

    method StartElement(q: QName)
      requires Valid()
      modifies this
      ensures Valid()
      ensures open == old(open) + [Element(q, map[], [])] && closed == old(closed)
    {
      open := open + [Element(q, map[], [])];
    }

    method AddAttribute(q: QName, v: string)
      requires Valid() && |open| > 0
      modifies this
      ensures Valid() && closed == old(closed)
      ensures open == old(open[..|open| - 1]) + [SetAttribute(old(open[|open| - 1]), q, v)]
    {
      var top := open[|open| - 1];
      open := open[..|open| - 1] + [SetAttribute(top, q, v)];
    }

    method AddTextNode(s: string)
      requires Valid() && |open| > 0
      modifies this
      ensures Valid() && (open, closed) == old(Emit(open, closed, Text(s)))
    {
      var r := Emit(open, closed, Text(s));
      open, closed := r.0, r.1;
    }

    method EndElement()
      requires Valid() && |open| > 0
      modifies this
      ensures Valid()
      ensures (open, closed) == old(Emit(open[..|open| - 1], closed, open[|open| - 1]))
    {
      var top := open[|open| - 1];
      var r := Emit(open[..|open| - 1], closed, top);
      open, closed := r.0, r.1;
    }
  }

  /** Emitting into an innermost open element `top` makes the node its last child. */
  lemma EmitOnto(below: seq<Node>, top: Node, closed: seq<Node>, n: Node)
    requires AllElements(below) && top.Element?
    ensures AllElements(below + [top])
    ensures Emit(below + [top], closed, n) == (below + [AppendChild(top, n)], closed)
  {
    TakeOfAppend(below, [top]);
  }
}
