/** An already-parsed XML document as the extractor sees it: a tree of
    elements, each with a tag, attributes, optional text and child elements.
    The queries are the ElementTree ones the extractor uses. */
module Xml {
  import opened Wrappers

  datatype Element = Element(tag: string, attrs: map<string, string>, text: Option<string>, children: seq<Element>)
  {
    /** `elem.get(name, default)`. */
    function Get(name: string, default: string): string {
      if name in attrs then attrs[name] else default
    }

    /** `elem.get(name)`, `None` when absent. */
    function Attr(name: string): Option<string> {
      if name in attrs then Some(attrs[name]) else None
    }

    /** `elem.find(tag)`: the first child with that tag. */
    function Find(t: string): (r: Option<Element>)
      ensures r.None? <==> forall i :: 0 <= i < |children| ==> children[i].tag != t
      ensures r.Some? ==> exists i :: 0 <= i < |children| && children[i] == r.value && r.value.tag == t
                                      && forall j :: 0 <= j < i ==> children[j].tag != t
    {
      FirstWithTag(children, t)
    }

    /** `elem.findall(tag)`: the children with that tag, in document order. */
    function FindAll(t: string): (r: seq<Element>)
      ensures forall x :: x in r ==> x in children && x.tag == t
      ensures forall i :: 0 <= i < |children| && children[i].tag == t ==> children[i] in r
    {
      WithTag(children, t)
    }

    /** `elem.find(".//tag") is not None`: some element strictly below this
        one has the tag. */
    predicate HasDescendant(t: string)
      decreases this
    {
      exists i :: 0 <= i < |children| && (children[i].tag == t || children[i].HasDescendant(t))
    }
  }

  /** Position of the first element with the tag, or `|s|` when none has it. */
  function FirstIndexWithTag(s: seq<Element>, t: string): (k: nat)
    ensures k <= |s|
    ensures forall j :: 0 <= j < k ==> s[j].tag != t
    ensures k < |s| ==> s[k].tag == t
  {
    if s == [] then 0
    else if s[0].tag == t then 0
    else
      var k := FirstIndexWithTag(s[1..], t);
      assert forall j :: 1 <= j < k + 1 ==> s[j] == s[1..][j - 1];
      k + 1
  }

  function FirstWithTag(s: seq<Element>, t: string): (r: Option<Element>)
    ensures r.None? <==> forall i :: 0 <= i < |s| ==> s[i].tag != t
    ensures r.Some? ==> exists i :: 0 <= i < |s| && s[i] == r.value && r.value.tag == t
                                    && forall j :: 0 <= j < i ==> s[j].tag != t
  {
    var k := FirstIndexWithTag(s, t);
    if k < |s| then Some(s[k]) else None
  }

  function WithTag(s: seq<Element>, t: string): (r: seq<Element>)
    ensures forall x :: x in r ==> x in s && x.tag == t
    ensures forall i :: 0 <= i < |s| && s[i].tag == t ==> s[i] in r
  {
    if s == [] then []
    else
      var rest := WithTag(s[..|s| - 1], t);
      assert forall i :: 0 <= i < |s| - 1 ==> s[i] == s[..|s| - 1][i];
      if s[|s| - 1].tag == t then rest + [s[|s| - 1]] else rest
  }

  /** An ElementTree element is falsy when it is absent and also when it has
      no child elements, so `if not elem` treats both alike. */
  predicate Missing(e: Option<Element>) {
    e.None? || e.value.children == []
  }

  /** `elem.find("tag[@attr='value']")`: the first child with that tag whose
      attribute has that value. */
  function FindWithAttr(s: seq<Element>, t: string, attr: string, value: string): (r: Option<Element>)
    ensures r.Some? ==> r.value in s && r.value.tag == t && r.value.Attr(attr) == Some(value)
    ensures r.None? ==> forall i :: 0 <= i < |s| ==> !(s[i].tag == t && s[i].Attr(attr) == Some(value))
  {
    if s == [] then None
    else if s[0].tag == t && s[0].Attr(attr) == Some(value) then Some(s[0])
    else
      var r := FindWithAttr(s[1..], t, attr, value);
      assert forall i :: 1 <= i < |s| ==> s[i] == s[1..][i - 1];
      r
  }
}
