/** The XML side of the converter: element trees as values, and the lookups
    (`find`, `.//` searches) that the converter performs on them. */
module Xml {
  import opened Wrappers

  /** An ElementTree element: tag, optional text, attributes, ordered children. */
  datatype Elem = Elem(tag: string, text: Option<string>, attrs: map<string, string>, children: seq<Elem>)

  /** `elem.text or ""`: a missing or empty text reads as the empty string. */
  function TextOr(t: Option<string>): string {
    if t.Some? then t.value else ""
  }

  /** `_create_element(name, text=..., transactionid=...)`. */
  function CreateElement(name: string, text: Option<string>, transactionid: Option<string>): (e: Elem)
    ensures e.tag == name && e.children == [] && e.text == text
    ensures "transactionid" in e.attrs <==> transactionid.Some?
    ensures transactionid.Some? ==> e.attrs["transactionid"] == transactionid.value
    ensures forall a :: a in e.attrs ==> a == "transactionid"
  {
    Elem(name, text, if transactionid.Some? then map["transactionid" := transactionid.value] else map[], [])
  }

  /** The comparison a `Filter` element asks the appliance for. */
  datatype Filter = Equal | Like | Except

  function Criteria(f: Filter): (v: string)
    ensures v != ""
  {
    match f
    case Equal => "="
    case Like => "like"
    case Except => "!="
  }

  /** Each comparison has its own criteria string. */
  lemma CriteriaInjective(f: Filter, g: Filter)
    ensures Criteria(f) == Criteria(g) <==> f == g
  {
  }

  /** `_make_filter(type, name)`: a `Filter` element holding one `key`
      element whose text is the name, with the attributes `name="Name"` and
      `criteria` set to the comparison. */
  function MakeFilter(f: Filter, name: string): (e: Elem)
    ensures e.tag == "Filter" && e.text.None? && e.attrs == map[] && |e.children| == 1
    ensures var key := e.children[0];
      key.tag == "key" && key.text == Some(name) && key.children == [] &&
      key.attrs == map["name" := "Name", "criteria" := Criteria(f)]
  {
    var key := CreateElement("key", Some(name), None);
    var key' := key.(attrs := key.attrs["name" := "Name"]["criteria" := Criteria(f)]);
    CreateElement("Filter", None, None).(children := [key'])
  }

  /** An element with a tag and a text and nothing else. */
  function Leaf(tag: string, text: string): Elem {
    Elem(tag, Some(text), map[], [])
  }

  /** An element with a tag and children and no text. */
  function Node(tag: string, children: seq<Elem>): Elem {
    Elem(tag, None, map[], children)
  }

  /** `elem.find("./tag")`: the index of the first child with that tag. */
  function FindChild(cs: seq<Elem>, tag: string): (r: Option<nat>)
    ensures r.Some? ==> r.value < |cs| && cs[r.value].tag == tag
    ensures r.Some? ==> forall j :: 0 <= j < r.value ==> cs[j].tag != tag
    ensures r.None? <==> forall j :: 0 <= j < |cs| ==> cs[j].tag != tag
  {
    if cs == [] then None
    else if cs[0].tag == tag then Some(0)
    else match FindChild(cs[1..], tag)
      case None => None
      case Some(j) => Some(j + 1)
  }

  /** The children of `cs` that carry `tag`, in document order (`findall("./tag")`). */
  function ChildrenTagged(cs: seq<Elem>, tag: string): (r: seq<Elem>)
    ensures |r| <= |cs|
    ensures forall x :: x in r ==> x in cs && x.tag == tag
    ensures forall j :: 0 <= j < |cs| && cs[j].tag == tag ==> cs[j] in r
  {
    if cs == [] then []
    else (if cs[0].tag == tag then [cs[0]] else []) + ChildrenTagged(cs[1..], tag)
  }

  lemma {:induction false} ChildrenTaggedConcat(a: seq<Elem>, b: seq<Elem>, tag: string)
    ensures ChildrenTagged(a + b, tag) == ChildrenTagged(a, tag) + ChildrenTagged(b, tag)
    decreases |a|
  {
    if a == [] {
      assert a + b == b;
    } else {
      assert (a + b)[0] == a[0] && (a + b)[1..] == a[1..] + b;
      ChildrenTaggedConcat(a[1..], b, tag);
    }
  }

  /** `findall` keeps every child when all carry the tag, and none when none does. */
  lemma {:induction false} ChildrenTaggedAll(cs: seq<Elem>, tag: string, keep: bool)
    requires forall j :: 0 <= j < |cs| ==> (cs[j].tag == tag <==> keep)
    ensures ChildrenTagged(cs, tag) == if keep then cs else []
    decreases |cs|
  {
    if cs != [] {
      ChildrenTaggedAll(cs[1..], tag, keep);
      if keep {
        assert [cs[0]] + cs[1..] == cs;
      }
    }
  }

  /** Some proper descendant of `e` carries `tag`. */
  ghost predicate HasDescendant(e: Elem, tag: string)
    decreases e
  {
    exists i :: 0 <= i < |e.children| && (e.children[i].tag == tag || HasDescendant(e.children[i], tag))
  }

  /** A path of child indices from `e` down to one of its proper descendants. */
  predicate ValidPath(e: Elem, p: seq<nat>)
    decreases |p|
  {
    |p| > 0 && p[0] < |e.children| && (|p| == 1 || ValidPath(e.children[p[0]], p[1..]))
  }

  function At(e: Elem, p: seq<nat>): Elem
    requires ValidPath(e, p)
    decreases |p|
  {
    if |p| == 1 then e.children[p[0]] else At(e.children[p[0]], p[1..])
  }

  /** `e.find(".//tag")`: the path to the first proper descendant of `e` with
      that tag, in document (pre-)order; the search starts at child `i`. */
  function FindDescendantFrom(e: Elem, tag: string, i: nat): (r: Option<seq<nat>>)
    requires i <= |e.children|
    ensures r.Some? ==> ValidPath(e, r.value) && At(e, r.value).tag == tag && i <= r.value[0]
    ensures r.None? ==> forall j :: i <= j < |e.children| ==>
                          e.children[j].tag != tag && !HasDescendant(e.children[j], tag)
    decreases e, |e.children| - i
  {
    if i == |e.children| then None
    else if e.children[i].tag == tag then Some([i])
    else match FindDescendantFrom(e.children[i], tag, 0)
      case Some(p) => Some([i] + p)
      case None => FindDescendantFrom(e, tag, i + 1)
  }

  function FindDescendant(e: Elem, tag: string): (r: Option<seq<nat>>)
    ensures r.Some? ==> ValidPath(e, r.value) && At(e, r.value).tag == tag
    ensures r.None? <==> !HasDescendant(e, tag)
  {
    var r := FindDescendantFrom(e, tag, 0);
    if r.Some? then PathIsDescendant(e, r.value, tag); r else r
  }

  /** The element at a valid path is a proper descendant. */
  lemma {:induction false} PathIsDescendant(e: Elem, p: seq<nat>, tag: string)
    requires ValidPath(e, p) && At(e, p).tag == tag
    ensures HasDescendant(e, tag)
    decreases |p|
  {
    if |p| > 1 {
      PathIsDescendant(e.children[p[0]], p[1..], tag);
    }
    assert e.children[p[0]].tag == tag || HasDescendant(e.children[p[0]], tag);
  }

  /** The first descendant in document order is the child `k` when it carries
      the tag and no earlier child carries it or holds it. */
  lemma {:induction false} FindDescendantAtChild(e: Elem, tag: string, k: nat)
    requires k < |e.children| && e.children[k].tag == tag
    requires forall j :: 0 <= j < k ==> e.children[j].tag != tag && !HasDescendant(e.children[j], tag)
    ensures FindDescendant(e, tag) == Some([k])
  {
    FindDescendantFromChild(e, tag, k, 0);
  }

  lemma {:induction false} FindDescendantFromChild(e: Elem, tag: string, k: nat, i: nat)
    requires i <= k < |e.children| && e.children[k].tag == tag
    requires forall j :: i <= j < k ==> e.children[j].tag != tag && !HasDescendant(e.children[j], tag)
    ensures FindDescendantFrom(e, tag, i) == Some([k])
    decreases k - i
  {
    if i < k {
      var c := e.children[i];
      assert FindDescendant(c, tag).None?;
      FindDescendantFromChild(e, tag, k, i + 1);
    }
  }

  /** When child `k` does not carry the tag but holds it, and no earlier
      child carries or holds it, the first descendant lies below child `k`:
      the path is longer than one step. */
  lemma {:induction false} FindDescendantBelowChild(e: Elem, tag: string, k: nat)
    requires k < |e.children| && e.children[k].tag != tag && HasDescendant(e.children[k], tag)
    requires forall j :: 0 <= j < k ==> e.children[j].tag != tag && !HasDescendant(e.children[j], tag)
    ensures FindDescendant(e, tag).Some? && FindDescendant(e, tag).value[0] == k && |FindDescendant(e, tag).value| > 1
  {
    FindDescendantFromBelow(e, tag, k, 0);
  }

  lemma {:induction false} FindDescendantFromBelow(e: Elem, tag: string, k: nat, i: nat)
    requires i <= k < |e.children| && e.children[k].tag != tag && HasDescendant(e.children[k], tag)
    requires forall j :: i <= j < k ==> e.children[j].tag != tag && !HasDescendant(e.children[j], tag)
    ensures FindDescendantFrom(e, tag, i) == Some([k] + FindDescendant(e.children[k], tag).value)
    decreases k - i
  {
    if i < k {
      var c := e.children[i];
      assert FindDescendant(c, tag).None?;
      FindDescendantFromBelow(e, tag, k, i + 1);
    }
  }

  /** `e` with `extra` appended to the children of the descendant at `p`. */
  function ExtendAt(e: Elem, p: seq<nat>, extra: seq<Elem>): (r: Elem)
    requires ValidPath(e, p)
    ensures r.tag == e.tag && r.text == e.text && |r.children| == |e.children|
    ensures ValidPath(r, p) && At(r, p) == At(e, p).(children := At(e, p).children + extra)
    ensures forall j :: 0 <= j < |e.children| && j != p[0] ==> r.children[j] == e.children[j]
    decreases |p|
  {
    var c := e.children[p[0]];
    var c' := if |p| == 1 then c.(children := c.children + extra) else ExtendAt(c, p[1..], extra);
    e.(children := e.children[p[0] := c'])
  }
}
