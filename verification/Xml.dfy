/** XML elements of one namespace, with element children only, and the lookups lxml offers on them. */
module Xml {
  import opened Wrappers
  import opened Sequences

  datatype Element = Element(tag: string, attributes: seq<(string, string)>, children: seq<Element>)

  function Lookup(attributes: seq<(string, string)>, name: string): Option<string> {
    if attributes == [] then None
    else if attributes[0].0 == name then Some(attributes[0].1)
    else Lookup(attributes[1..], name)
  }

  /** element.get(name) */
  function Get(e: Element, name: string): Option<string> {
    Lookup(e.attributes, name)
  }

  /** An attribute's value is that of the first attribute with the name. */
  lemma {:induction false} GetMeaning(e: Element, name: string, value: string)
    ensures Get(e, name) == Some(value) <==> exists k :: FirstNamed(e.attributes, name, k) && e.attributes[k].1 == value
  {
    LookupMeaning(e.attributes, name);
  }

  predicate FirstNamed(attributes: seq<(string, string)>, name: string, k: int) {
    0 <= k < |attributes| && attributes[k].0 == name && forall j :: 0 <= j < k ==> attributes[j].0 != name
  }

  lemma {:induction false} LookupMeaning(attributes: seq<(string, string)>, name: string)
    ensures forall k :: FirstNamed(attributes, name, k) ==> Lookup(attributes, name) == Some(attributes[k].1)
    ensures Lookup(attributes, name).Some? ==> exists k :: FirstNamed(attributes, name, k)
  {
    if attributes != [] {
      var rest := attributes[1..];
      LookupMeaning(rest, name);
      forall k | FirstNamed(attributes, name, k) && k > 0 ensures FirstNamed(rest, name, k - 1) {
        assert forall j :: 0 <= j < k - 1 ==> rest[j] == attributes[j + 1];
      }
      if attributes[0].0 == name {
        assert FirstNamed(attributes, name, 0);
      } else if k :| FirstNamed(rest, name, k) {
        assert forall j :: 0 < j < |attributes| ==> attributes[j] == rest[j - 1];
        assert FirstNamed(attributes, name, k + 1);
      }
    }
  }

  /** element.get(name, "") */
  function GetOrEmpty(e: Element, name: string): string {
    match Get(e, name) case None => "" case Some(text) => text
  }

  function HasTag(tag: string): Element -> bool {
    (e: Element) => e.tag == tag
  }

  /** element.findall("sp:tag") */
  function FindAll(e: Element, tag: string): seq<Element> {
    Filter(HasTag(tag), e.children)
  }

  function First(es: seq<Element>): Option<Element> {
    if es == [] then None else Some(es[0])
  }

  /** element.find("sp:tag") */
  function Find(e: Element, tag: string): Option<Element> {
    First(FindAll(e, tag))
  }

  /** An element and everything under it, in document order. */
  function Subtree(e: Element): (es: seq<Element>)
    ensures es != []
    decreases e, 1
  {
    [e] + Below(e.children)
  }

  /** The subtrees of a list of elements, in document order. */
  function Below(es: seq<Element>): seq<Element>
    decreases es, 0
  {
    if es == [] then [] else Subtree(es[0]) + Below(es[1..])
  }

  /** element.findall(".//sp:tag") */
  function Descendants(e: Element, tag: string): seq<Element> {
    Filter(HasTag(tag), Below(e.children))
  }

  lemma {:induction false} BelowAppend(es: seq<Element>, fs: seq<Element>)
    ensures Below(es + fs) == Below(es) + Below(fs)
  {
    if es == [] {
      assert es + fs == fs;
    } else {
      assert (es + fs)[1..] == es[1..] + fs;
      BelowAppend(es[1..], fs);
    }
  }
}
