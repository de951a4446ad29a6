/** A small tree standing for the System.Xml.Linq nodes the text parser reads. */
module Xml {
  import opened Wrappers

  /**
   * An XML node: text, an element, a CDATA section (whose text counts in
   * Value but whose node type is not Text), or any other kind (comment,
   * processing instruction).
   */
  datatype Node = TextNode(text: string) | ElementNode(element: XElement) | CDataNode(data: string) | OtherNode

  datatype XElement = XElement(name: string, attributes: map<string, string>, children: seq<Node>)

  /** XElement.Attribute(name): the attribute's value, or None when it is absent. */
  function Attribute(e: XElement, name: string): (r: Option<string>)
    ensures r.Some? <==> name in e.attributes
    ensures r.Some? ==> r.value == e.attributes[name]
  {
    if name in e.attributes then Some(e.attributes[name]) else None
  }

  /** XElement.Value: the concatenation of all descendant text and CDATA, in document order. */
  function Value(e: XElement): string
    decreases e, |e.children| + 1
  {
    ChildrenValue(e, |e.children|)
  }

  /** The text under the first k children of e. */
  function ChildrenValue(e: XElement, k: nat): string
    requires k <= |e.children|
    decreases e, k
  {
    if k == 0 then []
    else
      var v := match e.children[k - 1]
        case TextNode(t) => t
        case ElementNode(c) => Value(c)
        case CDataNode(t) => t
        case OtherNode => [];
      ChildrenValue(e, k - 1) + v
  }
}
