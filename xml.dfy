/**
 * The slice of ElementTree the proxy builder uses: an element with a tag, an
 * attribute map, optional text and an ordered list of children.
 */
module Xml {
  import opened Wrappers

  datatype Element = Element(tag: string, attrib: map<string, string>, text: Option<string>, children: seq<Element>)

  /** `<tag/>`: no attributes, no text, no children. */
  function Empty(tag: string): Element
  {
    Element(tag, map[], None, [])
  }

  /** `ET.SubElement(parent, ...)`: `child` appended as the last child of `parent`. */
  function SubElement(parent: Element, child: Element): (e: Element)
    ensures e.tag == parent.tag && e.attrib == parent.attrib && e.text == parent.text
    ensures e.children == parent.children + [child]
  {
    parent.(children := parent.children + [child])
  }

  /** `Element.find(tag)` on direct children: the position of the first child with that tag. */
  function Find(children: seq<Element>, tag: string): (r: Option<nat>)
    ensures r.Some? ==> r.value < |children| && children[r.value].tag == tag
    ensures forall i :: 0 <= i < |children| && (r.None? || i < r.value) ==> children[i].tag != tag
  {
    if children == [] then None
    else if children[0].tag == tag then Some(0)
    else match Find(children[1..], tag)
      case None => None
      case Some(i) => Some(i + 1)
  }
}
