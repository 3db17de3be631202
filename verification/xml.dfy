/** XML documents as element trees, with the two look-ups the source and its
    consumers perform: an attribute by name and a child element by name. */
module Xml {
  import opened Wrappers

  datatype Attribute = Attribute(name: string, value: string)

  /** An element: tag name, attributes and child elements in insertion
      order, and its text content ("" when no text was added). */
  datatype Element = Element(name: string, attributes: seq<Attribute>, text: string, children: seq<Element>)

  /** Attribute `i` is the first one called `name`. */
  predicate FirstAttributeNamed(attrs: seq<Attribute>, name: string, i: int) {
    0 <= i < |attrs| && attrs[i].name == name && forall j :: 0 <= j < i ==> attrs[j].name != name
  }

  /** The value of the first attribute called `name` (`NamedNodeMap.getNamedItem`). */
  function LookupAttribute(attrs: seq<Attribute>, name: string): (r: Option<string>)
    ensures r.None? <==> forall i :: 0 <= i < |attrs| ==> attrs[i].name != name
    ensures r.Some? ==> exists i :: FirstAttributeNamed(attrs, name, i) && attrs[i].value == r.value
  {
    if |attrs| == 0 then None
    else if attrs[0].name == name then
      assert FirstAttributeNamed(attrs, name, 0);
      Some(attrs[0].value)
    else
      var r := LookupAttribute(attrs[1..], name);
      if r.Some? then
        var i :| FirstAttributeNamed(attrs[1..], name, i) && attrs[1..][i].value == r.value;
        assert FirstAttributeNamed(attrs, name, i + 1);
        r
      else r
  }

  /** The value of `e`'s attribute `name`, or `None` when it has none
      (`getAttributeByName`). */
  function AttributeByName(e: Element, name: string): (r: Option<string>)
    ensures r.None? <==> forall i :: 0 <= i < |e.attributes| ==> e.attributes[i].name != name
    ensures r.Some? ==> exists i :: FirstAttributeNamed(e.attributes, name, i) && e.attributes[i].value == r.value
  {
    LookupAttribute(e.attributes, name)
  }

  /** Child `i` is the first one whose tag is `name`. */
  predicate FirstChildNamed(children: seq<Element>, name: string, i: int) {
    0 <= i < |children| && children[i].name == name && forall j :: 0 <= j < i ==> children[j].name != name
  }

  function LookupChild(children: seq<Element>, name: string): (r: Option<Element>)
    ensures r.None? <==> forall i :: 0 <= i < |children| ==> children[i].name != name
    ensures r.Some? ==> exists i :: FirstChildNamed(children, name, i) && children[i] == r.value
  {
    if |children| == 0 then None
    else if children[0].name == name then
      assert FirstChildNamed(children, name, 0);
      Some(children[0])
    else
      var r := LookupChild(children[1..], name);
      if r.Some? then
        var i :| FirstChildNamed(children[1..], name, i) && children[1..][i] == r.value;
        assert FirstChildNamed(children, name, i + 1);
        r
      else r
  }

  /** The first child of `e` whose tag is `name`. */
  function ChildNamed(e: Element, name: string): Option<Element> {
    LookupChild(e.children, name)
  }

  /** Descending one step along a path. */
  lemma DescendStep(e: Element, path: seq<string>, c: Element)
    requires |path| > 0 && ChildNamed(e, path[0]) == Some(c)
    ensures Descend(e, path) == Descend(c, path[1..])
  {
  }

  /** Follows `path` from `e`, taking the first child with each tag in turn. */
  function Descend(e: Element, path: seq<string>): Option<Element>
    decreases |path|
  {
    if |path| == 0 then Some(e)
    else match ChildNamed(e, path[0])
      case None => None
      case Some(c) => Descend(c, path[1..])
  }

  /** The first attribute named `name` is attribute `i` when no earlier one has that name. */
  lemma AttributeAt(attrs: seq<Attribute>, name: string, i: int)
    requires FirstAttributeNamed(attrs, name, i)
    ensures LookupAttribute(attrs, name) == Some(attrs[i].value)
  {
    var r := LookupAttribute(attrs, name);
    var k :| FirstAttributeNamed(attrs, name, k) && attrs[k].value == r.value;
    assert k == i;
  }

  /** The first child named `name` is child `i` when no earlier child has that name. */
  lemma ChildAt(children: seq<Element>, name: string, i: int)
    requires FirstChildNamed(children, name, i)
    ensures LookupChild(children, name) == Some(children[i])
  {
    var r := LookupChild(children, name);
    var k :| FirstChildNamed(children, name, k) && children[k] == r.value;
    assert k == i;
  }
}
