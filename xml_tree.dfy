/** A parsed XML document, as `ElementTree` holds it, and the two kinds of
    path query the XML-based extractors issue. */
module XmlTree {
  import opened Wrappers
  import opened Seqs

  datatype Element = Element(tag: string, attrs: map<string, string>, text: Option<string>, children: seq<Element>)

  /** `e.get(name)`: an attribute value, or `None`. */
  function Get(e: Element, name: string): Option<string> {
    if name in e.attrs then Some(e.attrs[name]) else None
  }

  /** All elements below the given ones, in document order (each element
      before its own descendants, siblings left to right). */
  function DescendantsOf(es: seq<Element>): seq<Element> {
    if es == [] then [] else [es[0]] + DescendantsOf(es[0].children) + DescendantsOf(es[1..])
  }

  /** Document order is kept across siblings. */
  lemma {:induction false} DescendantsOfConcat(a: seq<Element>, b: seq<Element>)
    ensures DescendantsOf(a + b) == DescendantsOf(a) + DescendantsOf(b)
  {
    if a == [] {
      assert a + b == b;
    } else {
      assert (a + b)[0] == a[0] && (a + b)[1..] == a[1..] + b;
      DescendantsOfConcat(a[1..], b);
    }
  }

  /** The node test `tag[@name='value']`. */
  predicate HasTagAndAttr(e: Element, tag: string, name: string, value: string) {
    e.tag == tag && Get(e, name) == Some(value)
  }

  /** `root.findall(".//tag[@name='value']")`: matching elements strictly below
      the root, in document order. */
  function FindAllBelow(root: Element, tag: string, name: string, value: string): seq<Element> {
    Filter(DescendantsOf(root.children), (e: Element) => HasTagAndAttr(e, tag, name, value))
  }

  /** `root.find(".//tag[@name='value']")`: the first of them, or `None`. */
  function FindBelow(root: Element, tag: string, name: string, value: string): (r: Option<Element>)
    ensures r.None? <==> FindAllBelow(root, tag, name, value) == []
    ensures r.Some? ==> r.value == FindAllBelow(root, tag, name, value)[0]
  {
    var all := FindAllBelow(root, tag, name, value);
    if all == [] then None else Some(all[0])
  }

  /** One `tag` step of a child path: the children with that tag of each
      context element, context elements taken in order. */
  function ChildrenWithTag(es: seq<Element>, tag: string): seq<Element> {
    if es == [] then [] else Filter(es[0].children, (c: Element) => c.tag == tag) + ChildrenWithTag(es[1..], tag)
  }

  /** `root.findall("./t1/t2/...")`. */
  function SelectPath(context: seq<Element>, tags: seq<string>): seq<Element>
    decreases |tags|
  {
    if tags == [] then context else SelectPath(ChildrenWithTag(context, tags[0]), tags[1..])
  }

  /** `root.find("./t1/t2/...")`. */
  function FindPath(root: Element, tags: seq<string>): Option<Element> {
    var all := SelectPath([root], tags);
    if all == [] then None else Some(all[0])
  }
}
