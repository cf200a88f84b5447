/**
 * The part of a parsed XML document that the ingestion code reads: an element's name, its
 * attributes and its child elements in document order. Loading and parsing the files is not
 * modelled; every ingestion routine receives the root element it would have loaded.
 */
module XmlTree {
  import opened Wrappers

  datatype Element = Element(name: string, attributes: map<string, string>, children: seq<Element>)

  /** `FindAttribute(name)`: the attribute's text, or None where the source gets nullptr. */
  function FindAttribute(e: Element, name: string): (r: Option<string>)
    ensures r.Some? <==> name in e.attributes
    ensures r.Some? ==> r.value == e.attributes[name]
  {
    if name in e.attributes then Some(e.attributes[name]) else None
  }

  /** `FirstChildElement(name)`: the first child carrying that name, or None. */
  function FirstChildNamed(children: seq<Element>, name: string): (r: Option<Element>)
    ensures r.None? <==> forall c :: c in children ==> c.name != name
    ensures r.Some? ==> r.value in children && r.value.name == name
    ensures r.Some? ==> exists k :: 0 <= k < |children| && children[k] == r.value
                          && forall j :: 0 <= j < k ==> children[j].name != name
  {
    if children == [] then None
    else if children[0].name == name then Some(children[0])
    else
      var r := FirstChildNamed(children[1..], name);
      assert forall c :: c in children[1..] ==> c in children;
      if r.Some? then
        var k :| 0 <= k < |children[1..]| && children[1..][k] == r.value
                 && forall j :: 0 <= j < k ==> children[1..][j].name != name;
        assert children[k + 1] == r.value;
        r
      else r
  }

  /** `FirstChildElement()` with no name: the first child element of any name. */
  function FirstChild(e: Element): (r: Option<Element>)
    ensures r.None? <==> e.children == []
    ensures r.Some? ==> r.value == e.children[0]
  {
    if e.children == [] then None else Some(e.children[0])
  }
}
