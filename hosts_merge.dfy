/** The `LocalServiceACL` pass: `json_to_xml` builds `Hosts` and `DstHosts`
    as two list containers, then moves the `DstHost` items into `Hosts`;
    `xml_to_json` splits them out again by item tag. */
module HostsMerge {
  import opened Wrappers
  import opened Xml
  import opened JsonData
  import opened Decoding
  import opened Encoding
  import opened EncodeProperties
  import opened RoundTrip
  import opened RoundTripEntities

  /** Reading the texts of such items back gives the strs. */
  lemma {:induction false} TextsOfItems(cs: seq<Elem>, others: seq<Elem>, tag: string, xs: seq<Json>)
    requires AllStr(xs) && |cs| == |xs|
    requires forall j :: 0 <= j < |xs| ==> cs[j] == Elem(tag, Some(xs[j].s), map[], [])
    requires forall j :: 0 <= j < |others| ==> others[j].tag != tag
    ensures TextsOf(cs + others, tag) == xs && TextsOf(others + cs, tag) == xs
  {
    ChildrenTaggedAll(cs, tag, true);
    ChildrenTaggedAll(others, tag, false);
    ChildrenTaggedConcat(cs, others, tag);
    ChildrenTaggedConcat(others, cs, tag);
    assert cs + [] == cs && [] + cs == cs;
  }

  /** Nothing in `cs` is or holds an element tagged `tag`. */
  ghost predicate Free(cs: seq<Elem>, tag: string) {
    forall j :: 0 <= j < |cs| ==> cs[j].tag != tag && !HasDescendant(cs[j], tag)
  }

  /** The merge proper: when the first `Hosts` of the tree is a child of the
      root with items and the first `DstHosts` is a later child of the root,
      the `DstHosts` items are appended after the `Host` items and `DstHosts`
      is removed; every other child stays where it was. */
  lemma {:induction false} MergeIntoHosts(root: Elem, before: seq<Elem>, hosts: Elem, mid: seq<Elem>, dst: Elem, after: seq<Elem>)
    requires root.children == before + [hosts] + mid + [dst] + after
    requires hosts.tag == "Hosts" && |hosts.children| > 0 && dst.tag == "DstHosts"
    requires Free(before, "Hosts") && Free(before, "DstHosts") && !HasDescendant(hosts, "DstHosts") && Free(mid, "DstHosts")
    ensures MergeDstHosts(root) ==
      Ok(root.(children := before + [hosts.(children := hosts.children + dst.children)] + mid + after))
  {
    FirstHostsAndDstHosts(root, before, hosts, mid, dst, after);
    MergeAt(root, before, hosts, mid, dst, after);
  }

  /** `MergeIntoHosts` with nothing between the two containers. */
  lemma {:induction false} MergeAdjacent(root: Elem, before: seq<Elem>, hosts: Elem, dst: Elem, after: seq<Elem>)
    requires root.children == before + [hosts, dst] + after
    requires hosts.tag == "Hosts" && |hosts.children| > 0 && dst.tag == "DstHosts"
    requires Free(before, "Hosts") && Free(before, "DstHosts") && !HasDescendant(hosts, "DstHosts")
    ensures MergeDstHosts(root) ==
      Ok(root.(children := before + [hosts.(children := hosts.children + dst.children)] + after))
  {
    assert root.children == before + [hosts] + [] + [dst] + after;
    MergeIntoHosts(root, before, hosts, [], dst, after);
    assert before + [hosts.(children := hosts.children + dst.children)] + [] + after
      == before + [hosts.(children := hosts.children + dst.children)] + after;
  }

  /** Where the pass finds `Hosts` and `DstHosts`. */
  lemma {:induction false} FirstHostsAndDstHosts(root: Elem, before: seq<Elem>, hosts: Elem, mid: seq<Elem>, dst: Elem, after: seq<Elem>)
    requires root.children == before + [hosts] + mid + [dst] + after
    requires hosts.tag == "Hosts" && dst.tag == "DstHosts"
    requires Free(before, "Hosts") && Free(before, "DstHosts") && !HasDescendant(hosts, "DstHosts") && Free(mid, "DstHosts")
    ensures FindDescendant(root, "Hosts") == Some([|before|])
    ensures FindDescendant(root, "DstHosts") == Some([|before| + 1 + |mid|])
  {
    assert root.children == before + [hosts] + (mid + [dst] + after);
    FirstAt(root, before, hosts, mid + [dst] + after, "Hosts");
    assert "Hosts"[0] != "DstHosts"[0];
    FreeAround(before, hosts, mid, "DstHosts");
    assert root.children == (before + [hosts] + mid) + [dst] + after;
    FirstAt(root, before + [hosts] + mid, dst, after, "DstHosts");
  }

  /** `Free` of the pieces is `Free` of the whole. */
  lemma {:induction false} FreeAround(a: seq<Elem>, c: Elem, b: seq<Elem>, tag: string)
    requires Free(a, tag) && c.tag != tag && !HasDescendant(c, tag) && Free(b, tag)
    ensures Free(a + [c] + b, tag)
  {
    var cs := a + [c] + b;
    forall j | 0 <= j < |cs|
      ensures cs[j].tag != tag && !HasDescendant(cs[j], tag)
    {
      if j < |a| {
        assert cs[j] == a[j];
      } else if j > |a| {
        assert cs[j] == b[j - |a| - 1];
      }
    }
  }

  /** The first element tagged `tag`, in document order, is the child after `before`. */
  lemma {:induction false} FirstAt(root: Elem, before: seq<Elem>, c: Elem, after: seq<Elem>, tag: string)
    requires root.children == before + [c] + after && c.tag == tag && Free(before, tag)
    ensures FindDescendant(root, tag) == Some([|before|])
  {
    var cs := root.children;
    forall j | 0 <= j < |before|
      ensures cs[j].tag != tag && !HasDescendant(cs[j], tag)
    {
      assert cs[j] == before[j];
    }
    FindDescendantAtChild(root, tag, |before|);
  }

  /** The rewrite once both are found. */
  lemma {:induction false} MergeAt(root: Elem, before: seq<Elem>, hosts: Elem, mid: seq<Elem>, dst: Elem, after: seq<Elem>)
    requires root.children == before + [hosts] + mid + [dst] + after
    requires |hosts.children| > 0
    requires FindDescendant(root, "Hosts") == Some([|before|])
    requires FindDescendant(root, "DstHosts") == Some([|before| + 1 + |mid|])
    ensures MergeDstHosts(root) ==
      Ok(root.(children := before + [hosts.(children := hosts.children + dst.children)] + mid + after))
  {
    var k := |before|;
    var hosts' := hosts.(children := hosts.children + dst.children);
    var merged := ExtendAt(root, [k], dst.children);
    assert merged.children == root.children[k := hosts'];
    DropAt(root.children, before, hosts, hosts', mid, dst, after);
  }

  /** Replacing `hosts` and dropping `dst` leaves the rest in order. */
  lemma {:induction false} DropAt(cs: seq<Elem>, before: seq<Elem>, hosts: Elem, hosts': Elem, mid: seq<Elem>, dst: Elem, after: seq<Elem>)
    requires cs == before + [hosts] + mid + [dst] + after
    ensures var m := |before| + 1 + |mid|;
      cs[|before| := hosts'][..m] + cs[|before| := hosts'][m + 1..] == before + [hosts'] + mid + after
  {
    var m := |before| + 1 + |mid|;
    var ds := cs[|before| := hosts'];
    assert ds == before + [hosts'] + mid + [dst] + after;
    assert ds[..m] == before + [hosts'] + mid;
    assert ds[m + 1..] == after;
  }

  // ---------------------------------------------------------------------------
  // The round trip of a `LocalServiceACL` with both lists.

  function HostsData(pre: Fields, hs: seq<Json>, ds: seq<Json>, post: Fields): Fields {
    pre + [("Hosts", Arr(hs)), ("DstHosts", Arr(ds))] + post
  }

  /** `Hosts` holds at least one str and `DstHosts` strs; the other fields
      are plain, and the table has the two containers. */
  predicate HostsPlain(tags: string -> Option<string>, pre: Fields, hs: seq<Json>, ds: seq<Json>, post: Fields) {
    tags("Hosts") == Some("Host") && tags("DstHosts") == Some("DstHost") &&
    PlainEach(tags, Reserved, pre, |pre|) && PlainEach(tags, Reserved, post, |post|) &&
    hs != [] && AllStr(hs) && AllStr(ds) && UniqueKeys(HostsData(pre, hs, ds, post))
  }

  /** The `Hosts` element after the merge: the `Host` items, then the
      `DstHost` items. */
  function MergedHosts(tags: string -> Option<string>, hs: seq<Json>, ds: seq<Json>): Elem
    requires EncodeItems(tags, "Host", hs, |hs|).Ok? && EncodeItems(tags, "DstHost", ds, |ds|).Ok?
  {
    Elem("Hosts", None, map[], EncodeItems(tags, "Host", hs, |hs|).value + EncodeItems(tags, "DstHost", ds, |ds|).value)
  }

  /** A list of strs under a list container: the container of its items. */
  lemma {:induction false} EncodeTextList(tags: string -> Option<string>, key: string, item: string, xs: seq<Json>)
    requires tags(key) == Some(item) && AllStr(xs)
    ensures EncodeItems(tags, item, xs, |xs|).Ok?
    ensures EncodeValue(tags, key, Arr(xs)) == Ok(Elem(key, None, map[], EncodeItems(tags, item, xs, |xs|).value))
  {
    TextItems(tags, item, xs);
  }

  /** Two fields: two elements. */
  lemma {:induction false} EncodeFieldsPair(tags: string -> Option<string>, f: (string, Json), g: (string, Json))
    requires EncodeValue(tags, f.0, f.1).Ok? && EncodeValue(tags, g.0, g.1).Ok?
    ensures EncodeFields(tags, [f, g], 2) == Ok([EncodeValue(tags, f.0, f.1).value, EncodeValue(tags, g.0, g.1).value])
  {
    var fs := [f, g];
    var c := EncodeValue(tags, f.0, f.1).value;
    var d := EncodeValue(tags, g.0, g.1).value;
    var empty: seq<Elem> := [];
    assert fs[0] == f && fs[1] == g;
    assert EncodeFields(tags, fs, 0) == Ok(empty);
    assert empty + [c] == [c];
    assert EncodeFields(tags, fs, 1) == Ok([c]);
    assert [c] + [d] == [c, d];
  }

  /** The tags the pass and the decoder compare, told apart. */
  lemma HostTags()
    ensures "Hosts" in Reserved && "DstHosts" in Reserved && Special <= Reserved
    ensures "Host" != "DstHosts" && "Host" != "DstHost" && "DstHost" != "Host"
    ensures "LocalServiceACL" != "SSLTLSInspectionRule"
  {
    assert "Host"[0] != "DstHosts"[0] && "DstHost"[0] != "Host"[0];
    assert "LocalServiceACL"[0] != "SSLTLSInspectionRule"[0];
  }

  /** An element whose children are leaves not tagged `tag` holds no `tag`. */
  lemma {:induction false} LeavesFree(e: Elem, tag: string)
    requires forall j :: 0 <= j < |e.children| ==> e.children[j].tag != tag && |e.children[j].children| == 0
    ensures !HasDescendant(e, tag)
  {
    forall j | 0 <= j < |e.children|
      ensures !HasDescendant(e.children[j], tag)
    {
      assert |e.children[j].children| == 0;
    }
  }

  /** `_json_to_xml` builds the two containers side by side; the pass then
      moves the `DstHost` items into `Hosts`. */
  lemma {:induction false} EncodeHosts(tags: string -> Option<string>, pre: Fields, hs: seq<Json>, ds: seq<Json>, post: Fields)
    requires HostsPlain(tags, pre, hs, ds, post)
    ensures EncodeFields(tags, pre, |pre|).Ok? && EncodeFields(tags, post, |post|).Ok?
    ensures EncodeItems(tags, "Host", hs, |hs|).Ok? && EncodeItems(tags, "DstHost", ds, |ds|).Ok?
    ensures Encode(tags, "LocalServiceACL", HostsData(pre, hs, ds, post)) ==
      Ok(Elem("LocalServiceACL", None, map[],
              EncodeFields(tags, pre, |pre|).value + [MergedHosts(tags, hs, ds)] + EncodeFields(tags, post, |post|).value))
  {
    HostTags();
    var mid := [("Hosts", Arr(hs)), ("DstHosts", Arr(ds))];
    NoReservedEach(tags, Reserved, pre, |pre|, "Hosts");
    NoReservedEach(tags, Reserved, pre, |pre|, "DstHosts");
    NoReservedEach(tags, Reserved, post, |post|, "Hosts");
    EncodeTextList(tags, "Hosts", "Host", hs);
    EncodeTextList(tags, "DstHosts", "DstHost", ds);
    EncodeFieldsPair(tags, mid[0], mid[1]);
    assert [mid[0], mid[1]] == mid;
    EncodeFieldsConcat(tags, pre, mid);
    EncodeFieldsConcat(tags, pre + mid, post);
    var P := EncodeFields(tags, pre, |pre|).value;
    var Q := EncodeFields(tags, post, |post|).value;
    var hostItems := EncodeItems(tags, "Host", hs, |hs|).value;
    var H := Elem("Hosts", None, map[], hostItems);
    var D := Elem("DstHosts", None, map[], EncodeItems(tags, "DstHost", ds, |ds|).value);
    TextItems(tags, "Host", hs);
    LeavesFree(H, "DstHosts");
    var root := Elem("LocalServiceACL", None, map[], P + [H, D] + Q);
    assert EncodeFields(tags, HostsData(pre, hs, ds, post), |HostsData(pre, hs, ds, post)|) == Ok(root.children);
    MergeAdjacent(root, P, H, D, Q);
  }

  /** `xml_to_json` splits the merged `Hosts` by item tag: a `Hosts` list
      of the `Host` texts and a `DstHosts` list of the `DstHost` texts. */
  lemma {:induction false} SplitHosts(tags: string -> Option<string>, hs: seq<Json>, ds: seq<Json>)
    requires hs != [] && AllStr(hs) && AllStr(ds)
    ensures EncodeItems(tags, "Host", hs, |hs|).Ok? && EncodeItems(tags, "DstHost", ds, |ds|).Ok?
    ensures ChildEntries(tags, MergedHosts(tags, hs, ds)) == Ok([("Hosts", Arr(hs)), ("DstHosts", Arr(ds))])
  {
    HostTags();
    TextItems(tags, "Host", hs);
    TextItems(tags, "DstHost", ds);
    var hostItems := EncodeItems(tags, "Host", hs, |hs|).value;
    var dstItems := EncodeItems(tags, "DstHost", ds, |ds|).value;
    TextsOfItems(hostItems, dstItems, "Host", hs);
    TextsOfItems(dstItems, hostItems, "DstHost", ds);
  }

  /** Decoding the merged tree gives the data back. */
  lemma {:induction false} DecodeHosts(tags: string -> Option<string>, pre: Fields, hs: seq<Json>, ds: seq<Json>, post: Fields)
    requires HostsPlain(tags, pre, hs, ds, post)
    ensures EncodeFields(tags, pre, |pre|).Ok? && EncodeFields(tags, post, |post|).Ok?
    ensures EncodeItems(tags, "Host", hs, |hs|).Ok? && EncodeItems(tags, "DstHost", ds, |ds|).Ok?
    ensures Decode(tags, Elem("LocalServiceACL", None, map[],
                             EncodeFields(tags, pre, |pre|).value + [MergedHosts(tags, hs, ds)] + EncodeFields(tags, post, |post|).value))
      == Ok(Obj(HostsData(pre, hs, ds, post)))
  {
    HostTags();
    NoReservedEach(tags, Reserved, pre, |pre|, "Hosts");
    NoReservedEach(tags, Reserved, post, |post|, "Hosts");
    SplitHosts(tags, hs, ds);
    DecodeAround(tags, pre, [("Hosts", Arr(hs)), ("DstHosts", Arr(ds))], post, MergedHosts(tags, hs, ds), "LocalServiceACL");
  }

  /** A child whose entries are `mid`, between the elements of plain fields:
      the dict comes back in order. */
  lemma {:induction false} DecodeAround(tags: string -> Option<string>, pre: Fields, mid: Fields, post: Fields, c: Elem, tag: string)
    requires PlainEach(tags, Reserved, pre, |pre|) && PlainEach(tags, Reserved, post, |post|)
    requires EncodeFields(tags, pre, |pre|).Ok? && EncodeFields(tags, post, |post|).Ok?
    requires ChildEntries(tags, c) == Ok(mid) && UniqueKeys(pre + mid + post)
    ensures Decode(tags, Elem(tag, None, map[], EncodeFields(tags, pre, |pre|).value + [c] + EncodeFields(tags, post, |post|).value))
      == Ok(Obj(pre + mid + post))
  {
    var e := Elem(tag, None, map[], EncodeFields(tags, pre, |pre|).value + [c] + EncodeFields(tags, post, |post|).value);
    var empty: Fields := [];
    DecodeAroundFields(tags, pre, mid, post, c, tag);
    AssignAllConcat(empty, pre, mid);
    AssignAllConcat(empty, pre + mid, post);
    AssignAllFresh(empty, pre + mid + post);
    assert empty + (pre + mid + post) == pre + mid + post;
    assert DecodeFields(tags, e, |e.children|) == Ok(pre + mid + post);
  }

  lemma {:induction false} DecodeAroundFields(tags: string -> Option<string>, pre: Fields, mid: Fields, post: Fields, c: Elem, tag: string)
    requires PlainEach(tags, Reserved, pre, |pre|) && PlainEach(tags, Reserved, post, |post|)
    requires EncodeFields(tags, pre, |pre|).Ok? && EncodeFields(tags, post, |post|).Ok?
    requires ChildEntries(tags, c) == Ok(mid)
    ensures var e := Elem(tag, None, map[], EncodeFields(tags, pre, |pre|).value + [c] + EncodeFields(tags, post, |post|).value);
      DecodeFields(tags, e, |e.children|) == Ok(AssignAll(AssignAll(AssignAll([], pre), mid), post))
  {
    EncodeFieldsPointwise(tags, post, |post|);
    var P := EncodeFields(tags, pre, |pre|).value;
    var Q := EncodeFields(tags, post, |post|).value;
    DecodeAroundHead(tags, pre, mid, c, tag, Q);
    var e := Elem(tag, None, map[], P + [c] + Q);
    SliceAfter(P, c, Q);
    DecodeAroundTail(tags, post, e, |P| + 1, AssignAll(AssignAll([], pre), mid));
  }

  /** Where the elements after the child sit; a lemma of its own keeps
      `DecodeAroundFields` small. */
  lemma {:induction false} SliceAfter(P: seq<Elem>, c: Elem, Q: seq<Elem>)
    ensures |P + [c] + Q| == |P| + 1 + |Q| && (P + [c] + Q)[|P| + 1..|P| + 1 + |Q|] == Q
  {
  }

  /** The plain fields after the child. */
  lemma {:induction false} DecodeAroundTail(tags: string -> Option<string>, post: Fields, e: Elem, n: nat, acc: Fields)
    requires PlainEach(tags, Reserved, post, |post|) && EncodeFields(tags, post, |post|).Ok?
    requires n + |post| == |e.children| && e.children[n..n + |post|] == EncodeFields(tags, post, |post|).value
    requires DecodeFields(tags, e, n) == Ok(acc)
    ensures DecodeFields(tags, e, |e.children|) == Ok(AssignAll(acc, post))
  {
    assert Special <= Reserved;
    assert SameContainers(tags, tags);
    RoundTripEach(tags, tags, Reserved, post, e, n, |post|, acc);
    assert post[..|post|] == post;
  }

  /** The plain fields before the child, then the child. */
  lemma {:induction false} DecodeAroundHead(tags: string -> Option<string>, pre: Fields, mid: Fields, c: Elem, tag: string, Q: seq<Elem>)
    requires PlainEach(tags, Reserved, pre, |pre|) && EncodeFields(tags, pre, |pre|).Ok?
    requires ChildEntries(tags, c) == Ok(mid)
    ensures |EncodeFields(tags, pre, |pre|).value| == |pre|
    ensures var e := Elem(tag, None, map[], EncodeFields(tags, pre, |pre|).value + [c] + Q);
      DecodeFields(tags, e, |pre| + 1) == Ok(AssignAll(AssignAll([], pre), mid))
  {
    assert Special <= Reserved;
    EncodeFieldsPointwise(tags, pre, |pre|);
    var P := EncodeFields(tags, pre, |pre|).value;
    var e := Elem(tag, None, map[], P + [c] + Q);
    var empty: Fields := [];
    assert SameContainers(tags, tags);
    assert e.children[0..|P|] == P;
    RoundTripEach(tags, tags, Reserved, pre, e, 0, |pre|, empty);
    assert pre[..|pre|] == pre;
    DecodeFieldsStep(tags, e, |P| + 1, c, AssignAll(empty, pre), mid);
  }

  /** `xml_to_json(json_to_xml("LocalServiceACL", data)) == data` when both
      lists are present, adjacent and `Hosts` is non-empty: the merge and the
      split undo each other. */
  lemma {:induction false} RoundTripHosts(tags: string -> Option<string>, pre: Fields, hs: seq<Json>, ds: seq<Json>, post: Fields)
    requires HostsPlain(tags, pre, hs, ds, post)
    ensures Encode(tags, "LocalServiceACL", HostsData(pre, hs, ds, post)).Ok?
    ensures Decode(tags, Encode(tags, "LocalServiceACL", HostsData(pre, hs, ds, post)).value) == Ok(Obj(HostsData(pre, hs, ds, post)))
  {
    EncodeHosts(tags, pre, hs, ds, post);
    DecodeHosts(tags, pre, hs, ds, post);
  }

  // ---------------------------------------------------------------------------
  // Where the pass loses or refuses the `DstHost` items.

  /** A childless `Hosts` is falsy: the items go to a detached
      `Element("Hosts")` and only the removal of `DstHosts` shows. */
  lemma {:induction false} MergeEmptyHosts(root: Elem, before: seq<Elem>, hosts: Elem, dst: Elem, after: seq<Elem>)
    requires root.children == before + [hosts, dst] + after
    requires hosts.tag == "Hosts" && |hosts.children| == 0 && dst.tag == "DstHosts"
    requires Free(before, "Hosts") && Free(before, "DstHosts")
    ensures MergeDstHosts(root) == Ok(root.(children := before + [hosts] + after))
  {
    assert !HasDescendant(hosts, "DstHosts");
    assert root.children == before + [hosts] + [] + [dst] + after;
    FirstHostsAndDstHosts(root, before, hosts, [], dst, after);
    var k := |before|;
    assert root.children[..k + 1] + root.children[k + 2..] == before + [hosts] + after;
  }

  /** No `Hosts` anywhere: the items go to a detached `Element("Hosts")`. */
  lemma {:induction false} MergeNoHosts(root: Elem, before: seq<Elem>, dst: Elem, after: seq<Elem>)
    requires root.children == before + [dst] + after && dst.tag == "DstHosts"
    requires Free(before, "Hosts") && Free(after, "Hosts") && !HasDescendant(dst, "Hosts")
    requires Free(before, "DstHosts")
    ensures MergeDstHosts(root) == Ok(root.(children := before + after))
  {
    HostTags();
    assert "DstHosts"[0] != "Hosts"[0];
    FirstAt(root, before, dst, after, "DstHosts");
    forall j | 0 <= j < |root.children|
      ensures root.children[j].tag != "Hosts" && !HasDescendant(root.children[j], "Hosts")
    {
      if j < |before| {
        assert root.children[j] == before[j];
      } else if j > |before| {
        assert root.children[j] == after[j - |before| - 1];
      }
    }
    assert FindDescendant(root, "Hosts").None?;
    var k := |before|;
    assert root.children[..k] + root.children[k + 1..] == before + after;
  }

  /** The first `DstHosts` below a child of the root: `remove` raises
      ValueError. */
  lemma {:induction false} MergeNested(root: Elem, before: seq<Elem>, c: Elem, after: seq<Elem>)
    requires root.children == before + [c] + after
    requires c.tag != "DstHosts" && HasDescendant(c, "DstHosts") && Free(before, "DstHosts")
    ensures MergeDstHosts(root) == Err(NotAChild("DstHosts"))
  {
    forall j | 0 <= j < |before|
      ensures root.children[j].tag != "DstHosts" && !HasDescendant(root.children[j], "DstHosts")
    {
      assert root.children[j] == before[j];
    }
    FindDescendantBelowChild(root, "DstHosts", |before|);
  }

  /** One field: one element. */
  lemma {:induction false} EncodeFieldsSingle(tags: string -> Option<string>, f: (string, Json))
    requires EncodeValue(tags, f.0, f.1).Ok?
    ensures EncodeFields(tags, [f], 1) == Ok([EncodeValue(tags, f.0, f.1).value])
  {
    var empty: seq<Elem> := [];
    assert [f][0] == f;
    assert EncodeFields(tags, [f], 0) == Ok(empty);
    assert empty + [EncodeValue(tags, f.0, f.1).value] == [EncodeValue(tags, f.0, f.1).value];
  }

  /** `DstHosts` without any `Hosts` in the data: `json_to_xml` builds the
      tree of the data without `DstHosts`; its items are lost. */
  lemma {:induction false} DropDstHosts(tags: string -> Option<string>, pre: Fields, ds: seq<Json>, post: Fields)
    requires tags("DstHosts") == Some("DstHost") && AllStr(ds)
    requires PlainEach(tags, Reserved, pre, |pre|) && PlainEach(tags, Reserved, post, |post|)
    ensures Encode(tags, "LocalServiceACL", pre + post).Ok?
    ensures Encode(tags, "LocalServiceACL", pre + [("DstHosts", Arr(ds))] + post) == Encode(tags, "LocalServiceACL", pre + post)
  {
    DropDstHostsTree(tags, pre, ds, post);
    EncodeWithoutHosts(tags, pre, post);
  }

  lemma {:induction false} DropDstHostsTree(tags: string -> Option<string>, pre: Fields, ds: seq<Json>, post: Fields)
    requires tags("DstHosts") == Some("DstHost") && AllStr(ds)
    requires PlainEach(tags, Reserved, pre, |pre|) && PlainEach(tags, Reserved, post, |post|)
    ensures EncodeFields(tags, pre, |pre|).Ok? && EncodeFields(tags, post, |post|).Ok?
    ensures Encode(tags, "LocalServiceACL", pre + [("DstHosts", Arr(ds))] + post) ==
      Ok(Elem("LocalServiceACL", None, map[], EncodeFields(tags, pre, |pre|).value + EncodeFields(tags, post, |post|).value))
  {
    HostTags();
    var f := ("DstHosts", Arr(ds));
    NoReservedEach(tags, Reserved, pre, |pre|, "Hosts");
    NoReservedEach(tags, Reserved, pre, |pre|, "DstHosts");
    NoReservedEach(tags, Reserved, post, |post|, "Hosts");
    EncodeTextList(tags, "DstHosts", "DstHost", ds);
    TextItems(tags, "DstHost", ds);
    EncodeFieldsSingle(tags, f);
    EncodeFieldsConcat(tags, pre, [f]);
    EncodeFieldsConcat(tags, pre + [f], post);
    var P := EncodeFields(tags, pre, |pre|).value;
    var Q := EncodeFields(tags, post, |post|).value;
    var D := EncodeValue(tags, f.0, f.1).value;
    LeavesFree(D, "Hosts");
    var root := Elem("LocalServiceACL", None, map[], P + [D] + Q);
    MergeNoHosts(root, P, D, Q);
  }

  /** Plain fields alone: the pass finds no `DstHosts` and changes nothing. */
  lemma {:induction false} EncodeWithoutHosts(tags: string -> Option<string>, pre: Fields, post: Fields)
    requires PlainEach(tags, Reserved, pre, |pre|) && PlainEach(tags, Reserved, post, |post|)
    ensures EncodeFields(tags, pre, |pre|).Ok? && EncodeFields(tags, post, |post|).Ok?
    ensures Encode(tags, "LocalServiceACL", pre + post) ==
      Ok(Elem("LocalServiceACL", None, map[], EncodeFields(tags, pre, |pre|).value + EncodeFields(tags, post, |post|).value))
  {
    HostTags();
    NoReservedEach(tags, Reserved, pre, |pre|, "DstHosts");
    NoReservedEach(tags, Reserved, post, |post|, "DstHosts");
    EncodeFieldsConcat(tags, pre, post);
    var P := EncodeFields(tags, pre, |pre|).value;
    var Q := EncodeFields(tags, post, |post|).value;
    var root := Elem("LocalServiceACL", None, map[], P + Q);
    forall j | 0 <= j < |root.children|
      ensures root.children[j].tag != "DstHosts" && !HasDescendant(root.children[j], "DstHosts")
    {
      if j < |P| {
        assert root.children[j] == P[j];
      } else {
        assert root.children[j] == Q[j - |P|];
      }
    }
    assert FindDescendant(root, "DstHosts").None?;
  }

  /** `DstHosts` after an empty `Hosts` list: `Hosts` is built without
      children, so it is falsy and the items are lost. */
  lemma {:induction false} DropAfterEmptyHosts(tags: string -> Option<string>, pre: Fields, ds: seq<Json>, post: Fields)
    requires tags("Hosts") == Some("Host") && tags("DstHosts") == Some("DstHost") && AllStr(ds)
    requires PlainEach(tags, Reserved, pre, |pre|) && PlainEach(tags, Reserved, post, |post|)
    ensures EncodeFields(tags, pre, |pre|).Ok? && EncodeFields(tags, post, |post|).Ok?
    ensures Encode(tags, "LocalServiceACL", HostsData(pre, [], ds, post)) ==
      Ok(Elem("LocalServiceACL", None, map[],
              EncodeFields(tags, pre, |pre|).value + [Elem("Hosts", None, map[], [])] + EncodeFields(tags, post, |post|).value))
  {
    HostTags();
    var hs: seq<Json> := [];
    var mid := [("Hosts", Arr(hs)), ("DstHosts", Arr(ds))];
    NoReservedEach(tags, Reserved, pre, |pre|, "Hosts");
    NoReservedEach(tags, Reserved, pre, |pre|, "DstHosts");
    NoReservedEach(tags, Reserved, post, |post|, "Hosts");
    EncodeTextList(tags, "Hosts", "Host", hs);
    EncodeTextList(tags, "DstHosts", "DstHost", ds);
    EncodeFieldsPair(tags, mid[0], mid[1]);
    assert [mid[0], mid[1]] == mid;
    EncodeFieldsConcat(tags, pre, mid);
    EncodeFieldsConcat(tags, pre + mid, post);
    var P := EncodeFields(tags, pre, |pre|).value;
    var Q := EncodeFields(tags, post, |post|).value;
    assert EncodeItems(tags, "Host", hs, |hs|) == Ok([]);
    var H := Elem("Hosts", None, map[], []);
    var D := Elem("DstHosts", None, map[], EncodeItems(tags, "DstHost", ds, |ds|).value);
    var root := Elem("LocalServiceACL", None, map[], P + [H, D] + Q);
    assert EncodeFields(tags, HostsData(pre, hs, ds, post), |HostsData(pre, hs, ds, post)|) == Ok(root.children);
    MergeEmptyHosts(root, P, H, D, Q);
  }
}
