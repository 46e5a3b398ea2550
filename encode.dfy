/** `json_to_xml`, `_json_to_xml` and the per-entity post-passes that
    rewrite the built tree. */
module Encoding {
  import opened Wrappers
  import opened Xml
  import opened JsonData
  import opened TagsOfLists

  // ---------------------------------------------------------------------------
  // `_json_to_xml`

  /** The child element for `key: v`. A str becomes the text, a dict the
      children, a list a container of items tagged `tags(key)` (KeyError when
      the key is not a list container); anything else an empty element. */
  function EncodeValue(tags: string -> Option<string>, key: string, v: Json): (r: Result<Elem, ConvError>)
    ensures r.Ok? ==> r.value.tag == key && r.value.attrs == map[]
    decreases v, 2
  {
    match v
    case Str(s) => Ok(Elem(key, Some(s), map[], []))
    case Null => Ok(Elem(key, None, map[], []))
    case Obj(fs) =>
      var cs :- EncodeFields(tags, fs, |fs|);
      Ok(Elem(key, None, map[], cs))
    case Arr(xs) =>
      if tags(key).None? then Err(UnknownContainer(key))
      else
        var items :- EncodeItems(tags, tags(key).value, xs, |xs|);
        Ok(Elem(key, None, map[], items))
  }

  /** The elements of the first `i` fields of a dict, in key order. */
  function EncodeFields(tags: string -> Option<string>, fs: Fields, i: nat): Result<seq<Elem>, ConvError>
    requires i <= |fs|
    decreases Obj(fs), 1, i
  {
    if i == 0 then Ok([])
    else
      var cs :- EncodeFields(tags, fs, i - 1);
      var c :- EncodeValue(tags, fs[i - 1].0, fs[i - 1].1);
      Ok(cs + [c])
  }

  /** One list item: `_create_element(item)` with the str as text or the
      dict's elements as children. */
  function EncodeItem(tags: string -> Option<string>, item: string, x: Json): (r: Result<Elem, ConvError>)
    ensures r.Ok? ==> r.value.tag == item && r.value.attrs == map[]
    decreases x, 2
  {
    match x
    case Str(s) => Ok(Elem(item, Some(s), map[], []))
    case Obj(fs) =>
      var cs :- EncodeFields(tags, fs, |fs|);
      Ok(Elem(item, None, map[], cs))
    case _ => Ok(Elem(item, None, map[], []))
  }

  /** The items of the first `i` entries of a list. */
  function EncodeItems(tags: string -> Option<string>, item: string, xs: seq<Json>, i: nat): Result<seq<Elem>, ConvError>
    requires i <= |xs|
    decreases Arr(xs), 1, i
  {
    if i == 0 then Ok([])
    else
      var cs :- EncodeItems(tags, item, xs, i - 1);
      var c :- EncodeItem(tags, item, xs[i - 1]);
      Ok(cs + [c])
  }

  // ---------------------------------------------------------------------------
  // `_handle_SSLTLSInspectionRule_Identity`: every `Member` child of an
  // `Identity` below the root is renamed `Members`.

  function Renamed(e: Elem, underIdentity: bool): Elem
    decreases e, 1
  {
    Elem(if underIdentity && e.tag == "Member" then "Members" else e.tag,
         e.text, e.attrs, RenamedSeq(e.children, e.tag == "Identity"))
  }

  function RenamedSeq(cs: seq<Elem>, underIdentity: bool): (r: seq<Elem>)
    ensures |r| == |cs|
    decreases cs, 0
  {
    seq(|cs|, j requires 0 <= j < |cs| => Renamed(cs[j], underIdentity))
  }

  /** `.//Identity/Member` only matches below the root, so the root itself
      never counts as the `Identity` parent. */
  function RenameIdentityMembers(root: Elem): Elem {
    root.(children := RenamedSeq(root.children, false))
  }

  // ---------------------------------------------------------------------------
  // `_handle_LocalServiceACL_Hosts`

  /** The first `.//DstHosts` must be a child of the root (ValueError from
      `remove` otherwise). Its children are appended to the first `.//Hosts`
      when that one has children; otherwise `Element("Hosts")` stands in and
      the items go to a detached element. `DstHosts` is then removed. */
  function MergeDstHosts(root: Elem): Result<Elem, ConvError> {
    match FindDescendant(root, "DstHosts")
    case None => Ok(root)
    case Some(dp) =>
      if |dp| != 1 then Err(NotAChild("DstHosts"))
      else
        var k := dp[0];
        var dst := root.children[k];
        var hp := FindDescendant(root, "Hosts");
        var merged :=
          if hp.Some? && |At(root, hp.value).children| > 0 && hp.value[0] != k
          then ExtendAt(root, hp.value, dst.children)
          else root;
        Ok(merged.(children := merged.children[..k] + merged.children[k + 1..]))
  }

  // ---------------------------------------------------------------------------
  // `_handle_FirewallRule_HTTPBasedPolicy`

  /** `find(name)`, then `extend` the parent with its children and `remove`
      it: the first child tagged `name` is replaced by its children, which
      go to the end. */
  function Lift(e: Elem, name: string): Elem {
    match FindChild(e.children, name)
    case None => e
    case Some(k) => e.(children := e.children[..k] + e.children[k + 1..] + e.children[k].children)
  }

  /** `Lift` for each name in turn. */
  function LiftAll(e: Elem, names: seq<string>): Elem
    decreases |names|
  {
    if names == [] then e else LiftAll(Lift(e, names[0]), names[1..])
  }

  const AccessPathContainers: seq<string> := ["backends", "allowed_networks", "denied_networks"]
  const ExceptionContainers: seq<string> := ["paths", "sources", "skip_threats_filter_categories"]

  /** `LiftAll` on every child of a pivot container, whatever its tag. */
  function LiftEntries(container: Elem, names: seq<string>): Elem {
    container.(children := seq(|container.children|, j requires 0 <= j < |container.children| =>
                                 LiftAll(container.children[j], names)))
  }

  /** `find("./parent/child")`: the first child tagged `child` of a child of
      `cs` tagged `parent`, as a pair of indices. */
  function FindGrandchild(cs: seq<Elem>, parent: string, child: string): (r: Option<(nat, nat)>)
    ensures r.Some? ==> r.value.0 < |cs| && cs[r.value.0].tag == parent &&
                        r.value.1 < |cs[r.value.0].children| && cs[r.value.0].children[r.value.1].tag == child
  {
    if cs == [] then None
    else
      var here := if cs[0].tag == parent then FindChild(cs[0].children, child) else None;
      if here.Some? then Some((0, here.value))
      else
        var rest := FindGrandchild(cs[1..], parent, child);
        if rest.None? then None else Some((rest.value.0 + 1, rest.value.1))
  }

  /** Nothing is found exactly when no `parent` has a `child`. */
  lemma {:induction false} FindGrandchildNone(cs: seq<Elem>, parent: string, child: string)
    ensures FindGrandchild(cs, parent, child).None? <==>
      forall i :: 0 <= i < |cs| && cs[i].tag == parent ==> FindChild(cs[i].children, child).None?
    decreases |cs|
  {
    if cs != [] {
      FindGrandchildNone(cs[1..], parent, child);
      if FindGrandchild(cs, parent, child).None? {
        forall i | 0 <= i < |cs| && cs[i].tag == parent
          ensures FindChild(cs[i].children, child).None?
        {
          if i > 0 {
            assert cs[i] == cs[1..][i - 1];
          }
        }
      } else {
        var (i, j) := FindGrandchild(cs, parent, child).value;
        assert cs[i].tag == parent && FindChild(cs[i].children, child).Some?;
      }
    }
  }

  /** The pair found is the first: its child is the first `child` of that
      `parent`, and no earlier `parent` has a `child`. */
  lemma {:induction false} FindGrandchildFirst(cs: seq<Elem>, parent: string, child: string)
    requires FindGrandchild(cs, parent, child).Some?
    ensures var (i, j) := FindGrandchild(cs, parent, child).value;
      FindChild(cs[i].children, child) == Some(j) &&
      forall i' :: 0 <= i' < i && cs[i'].tag == parent ==> FindChild(cs[i'].children, child).None?
    decreases |cs|
  {
    var here := if cs[0].tag == parent then FindChild(cs[0].children, child) else None;
    if here.None? {
      FindGrandchildFirst(cs[1..], parent, child);
      var (i, j) := FindGrandchild(cs[1..], parent, child).value;
      assert cs[i + 1] == cs[1..][i];
      forall i' | 0 <= i' < i + 1 && cs[i'].tag == parent
        ensures FindChild(cs[i'].children, child).None?
      {
        if i' > 0 {
          assert cs[i'] == cs[1..][i' - 1];
        }
      }
    }
  }

  /** Apply `LiftEntries` to the container found by `find("./HTTPBasedPolicy/<container>")`. */
  function LiftContainer(root: Elem, container: string, names: seq<string>): Elem {
    match FindGrandchild(root.children, "HTTPBasedPolicy", container)
    case None => root
    case Some((i, j)) =>
      var policy := root.children[i];
      var policy' := policy.(children := policy.children[j := LiftEntries(policy.children[j], names)]);
      root.(children := root.children[i := policy'])
  }

  function LiftPivots(root: Elem): Elem {
    LiftContainer(LiftContainer(root, "AccessPaths", AccessPathContainers), "Exceptions", ExceptionContainers)
  }

  // ---------------------------------------------------------------------------
  // `json_to_xml`

  /** The `FirewallRule` pass runs only when `find("./HTTPBasedPolicy")` is
      truthy, that is, when the first such child has children. */
  predicate HasPolicy(root: Elem) {
    var i := FindChild(root.children, "HTTPBasedPolicy");
    i.Some? && |root.children[i.value].children| > 0
  }

  /** The tree built for `entity` before and after its post-pass. */
  function Encode(tags: string -> Option<string>, entity: string, data: Fields): Result<Elem, ConvError> {
    var cs :- EncodeFields(tags, data, |data|);
    var root := Elem(entity, None, map[], cs);
    if entity == "SSLTLSInspectionRule" then Ok(RenameIdentityMembers(root))
    else if entity == "LocalServiceACL" then MergeDstHosts(root)
    else if entity == "FirewallRule" && HasPolicy(root) then Ok(LiftPivots(root))
    else Ok(root)
  }

  // ---------------------------------------------------------------------------
  // The loops of the source, proved to compute the functions above. The
  // table of list containers is a parameter; `JsonToXml` passes the table
  // of `tags_of_lists.py`.

  /** `json_to_xml(entity, data)` with the list-container table of the library. */
  method JsonToXml(entity: string, data: Fields) returns (r: Result<Elem, ConvError>)
    ensures r == Encode(ListItemTag, entity, data)
  {
    var children := BuildElements(ListItemTag, data);
    if children.Err? {
      return Err(children.error);
    }
    var elem := Elem(entity, None, map[], children.value);
    if entity == "SSLTLSInspectionRule" {
      r := Ok(RenameIdentityMembers(elem));
    } else if entity == "LocalServiceACL" {
      r := MergeDstHosts(elem);
    } else if entity == "FirewallRule" && HasPolicy(elem) {
      var lifted := HandleFirewallRule(elem);
      r := Ok(lifted);
    } else {
      r := Ok(elem);
    }
  }

  /** `_json_to_xml(data)`: one element per key, in key order. */
  method BuildElements(tags: string -> Option<string>, data: Fields) returns (r: Result<seq<Elem>, ConvError>)
    ensures r == EncodeFields(tags, data, |data|)
    decreases Obj(data), 1
  {
    var children: seq<Elem> := [];
    for i := 0 to |data|
      invariant EncodeFields(tags, data, i) == Ok(children)
    {
      var (tag, value) := data[i];
      var e := Elem(tag, None, map[], []);
      match value {
        case Str(s) =>
          e := e.(text := Some(s));
        case Obj(fs) =>
          var sub := BuildElements(tags, fs);
          if sub.Err? {
            EncodeFieldsFailureSticks(tags, data, i + 1, |data|);
            return Err(sub.error);
          }
          e := e.(children := sub.value);
        case Arr(xs) =>
          if tags(tag).None? {
            EncodeFieldsFailureSticks(tags, data, i + 1, |data|);
            return Err(UnknownContainer(tag));
          }
          var items := BuildItems(tags, tags(tag).value, xs);
          if items.Err? {
            EncodeFieldsFailureSticks(tags, data, i + 1, |data|);
            return Err(items.error);
          }
          e := e.(children := items.value);
        case Null =>
      }
      children := children + [e];
    }
    return Ok(children);
  }

  /** The inner loop of `_json_to_xml`: the items of a list value. */
  method BuildItems(tags: string -> Option<string>, item: string, xs: seq<Json>) returns (r: Result<seq<Elem>, ConvError>)
    ensures r == EncodeItems(tags, item, xs, |xs|)
    decreases Arr(xs), 1
  {
    var subChildren: seq<Elem> := [];
    for j := 0 to |xs|
      invariant EncodeItems(tags, item, xs, j) == Ok(subChildren)
    {
      var subChild := CreateElement(item, None, None);
      match xs[j] {
        case Str(s) =>
          subChild := subChild.(text := Some(s));
        case Obj(fs) =>
          var sub := BuildElements(tags, fs);
          if sub.Err? {
            EncodeItemsFailureSticks(tags, item, xs, j + 1, |xs|);
            return Err(sub.error);
          }
          subChild := subChild.(children := sub.value);
        case _ =>
      }
      subChildren := subChildren + [subChild];
    }
    return Ok(subChildren);
  }

  lemma {:induction false} EncodeFieldsFailureSticks(tags: string -> Option<string>, fs: Fields, i: nat, j: nat)
    requires i <= j <= |fs| && EncodeFields(tags, fs, i).Err?
    ensures EncodeFields(tags, fs, j) == EncodeFields(tags, fs, i)
    decreases j
  {
    if i < j {
      EncodeFieldsFailureSticks(tags, fs, i, j - 1);
    }
  }

  lemma {:induction false} EncodeItemsFailureSticks(tags: string -> Option<string>, item: string, xs: seq<Json>, i: nat, j: nat)
    requires i <= j <= |xs| && EncodeItems(tags, item, xs, i).Err?
    ensures EncodeItems(tags, item, xs, j) == EncodeItems(tags, item, xs, i)
    decreases j
  {
    if i < j {
      EncodeItemsFailureSticks(tags, item, xs, i, j - 1);
    }
  }

  /** `_handle_FirewallRule_HTTPBasedPolicy(elem)`. */
  method HandleFirewallRule(elem: Elem) returns (r: Elem)
    ensures r == LiftPivots(elem)
  {
    r := elem;
    var accessPaths := FindGrandchild(r.children, "HTTPBasedPolicy", "AccessPaths");
    if accessPaths.Some? {
      var (i, j) := accessPaths.value;
      var lifted := LiftEach(r.children[i].children[j], AccessPathContainers);
      var policy := r.children[i];
      r := r.(children := r.children[i := policy.(children := policy.children[j := lifted])]);
    }
    var exceptions := FindGrandchild(r.children, "HTTPBasedPolicy", "Exceptions");
    if exceptions.Some? {
      var (i, j) := exceptions.value;
      var lifted := LiftEach(r.children[i].children[j], ExceptionContainers);
      var policy := r.children[i];
      r := r.(children := r.children[i := policy.(children := policy.children[j := lifted])]);
    }
  }

  /** The loop over the entries of `AccessPaths` or `Exceptions`: lift the
      named containers of each entry, in turn. */
  method LiftEach(container: Elem, names: seq<string>) returns (r: Elem)
    ensures r == LiftEntries(container, names)
  {
    var entries := container.children;
    for n := 0 to |entries|
      invariant |entries| == |container.children|
      invariant forall m :: 0 <= m < n ==> entries[m] == LiftAll(container.children[m], names)
      invariant forall m :: n <= m < |entries| ==> entries[m] == container.children[m]
    {
      var entry := entries[n];
      for t := 0 to |names|
        invariant LiftAll(entry, names[t..]) == LiftAll(container.children[n], names)
      {
        entry := Lift(entry, names[t]);
      }
      assert names[|names|..] == [];
      entries := entries[n := entry];
    }
    r := container.(children := entries);
  }
}
