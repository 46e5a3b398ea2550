/** What `json_to_xml` promises about the tree it builds. */
module EncodeProperties {
  import opened Wrappers
  import opened Xml
  import opened JsonData
  import opened Encoding

  // ---------------------------------------------------------------------------
  // One element per key, in key order; one item per list entry.

  lemma {:induction false} EncodeFieldsPointwise(tags: string -> Option<string>, fs: Fields, i: nat)
    requires i <= |fs|
    ensures EncodeFields(tags, fs, i).Ok? <==> forall j :: 0 <= j < i ==> EncodeValue(tags, fs[j].0, fs[j].1).Ok?
    ensures EncodeFields(tags, fs, i).Ok? ==>
      var cs := EncodeFields(tags, fs, i).value;
      |cs| == i && forall j :: 0 <= j < i ==> cs[j] == EncodeValue(tags, fs[j].0, fs[j].1).value
    decreases i
  {
    if i > 0 {
      EncodeFieldsPointwise(tags, fs, i - 1);
    }
  }

  /** The elements of a prefix one longer: one more element. */
  lemma {:induction false} EncodeFieldsInit(tags: string -> Option<string>, fs: Fields, i: nat, cs: seq<Elem>)
    requires 0 < i <= |fs| && EncodeFields(tags, fs, i) == Ok(cs)
    ensures |cs| == i && EncodeFields(tags, fs, i - 1) == Ok(cs[..i - 1])
    ensures EncodeValue(tags, fs[i - 1].0, fs[i - 1].1) == Ok(cs[i - 1])
  {
    EncodeFieldsPointwise(tags, fs, i - 1);
    var init := EncodeFields(tags, fs, i - 1).value;
    assert cs == init + [EncodeValue(tags, fs[i - 1].0, fs[i - 1].1).value];
    assert cs[..i - 1] == init;
  }

  lemma {:induction false} EncodeItemsPointwise(tags: string -> Option<string>, item: string, xs: seq<Json>, i: nat)
    requires i <= |xs|
    ensures EncodeItems(tags, item, xs, i).Ok? <==> forall j :: 0 <= j < i ==> EncodeItem(tags, item, xs[j]).Ok?
    ensures EncodeItems(tags, item, xs, i).Ok? ==>
      var cs := EncodeItems(tags, item, xs, i).value;
      |cs| == i && forall j :: 0 <= j < i ==> cs[j] == EncodeItem(tags, item, xs[j]).value
    decreases i
  {
    if i > 0 {
      EncodeItemsPointwise(tags, item, xs, i - 1);
    }
  }

  /** A list of strs only. */
  predicate AllStr(xs: seq<Json>) {
    forall j :: 0 <= j < |xs| ==> xs[j].Str?
  }

  /** The elements of two runs of fields are those of each run, in order. */
  lemma {:induction false} EncodeFieldsConcat(tags: string -> Option<string>, a: Fields, b: Fields)
    requires EncodeFields(tags, a, |a|).Ok? && EncodeFields(tags, b, |b|).Ok?
    ensures EncodeFields(tags, a + b, |a + b|) == Ok(EncodeFields(tags, a, |a|).value + EncodeFields(tags, b, |b|).value)
  {
    EncodeFieldsPointwise(tags, a, |a|);
    EncodeFieldsPointwise(tags, b, |b|);
    EncodeFieldsPointwise(tags, a + b, |a + b|);
    var ab := a + b;
    assert forall j :: 0 <= j < |ab| ==> EncodeValue(tags, ab[j].0, ab[j].1).Ok? by {
      forall j | 0 <= j < |ab|
        ensures EncodeValue(tags, ab[j].0, ab[j].1).Ok?
      {
        if j < |a| {
          assert ab[j] == a[j];
        } else {
          assert ab[j] == b[j - |a|];
        }
      }
    }
    var cs := EncodeFields(tags, ab, |ab|).value;
    var expected := EncodeFields(tags, a, |a|).value + EncodeFields(tags, b, |b|).value;
    forall j | 0 <= j < |ab|
      ensures cs[j] == expected[j]
    {
      if j < |a| {
        assert ab[j] == a[j];
      } else {
        assert ab[j] == b[j - |a|];
      }
    }
    assert cs == expected;
  }

  /** The items of a list of strs: one text element each. */
  lemma {:induction false} TextItems(tags: string -> Option<string>, item: string, xs: seq<Json>)
    requires AllStr(xs)
    ensures EncodeItems(tags, item, xs, |xs|).Ok?
    ensures var cs := EncodeItems(tags, item, xs, |xs|).value;
      |cs| == |xs| && forall j :: 0 <= j < |xs| ==> cs[j] == Elem(item, Some(xs[j].s), map[], [])
  {
    EncodeItemsPointwise(tags, item, xs, |xs|);
  }

  // ---------------------------------------------------------------------------
  // The KeyError of `tags_of_lists[tag]`: encoding fails exactly when a list
  // sits under a key that is not a list container, at any depth.

  predicate KnownValue(tags: string -> Option<string>, key: string, v: Json)
    decreases v, 2
  {
    match v
    case Obj(fs) => KnownFields(tags, fs, |fs|)
    case Arr(xs) => tags(key).Some? && KnownItems(tags, xs, |xs|)
    case _ => true
  }

  predicate KnownFields(tags: string -> Option<string>, fs: Fields, i: nat)
    requires i <= |fs|
    decreases Obj(fs), 1, i
  {
    i == 0 || (KnownFields(tags, fs, i - 1) && KnownValue(tags, fs[i - 1].0, fs[i - 1].1))
  }

  predicate KnownItems(tags: string -> Option<string>, xs: seq<Json>, i: nat)
    requires i <= |xs|
    decreases Arr(xs), 1, i
  {
    i == 0 || (KnownItems(tags, xs, i - 1) && (xs[i - 1].Obj? ==> KnownFields(tags, xs[i - 1].fields, |xs[i - 1].fields|)))
  }

  lemma {:induction false} EncodeValueFails(tags: string -> Option<string>, key: string, v: Json)
    ensures EncodeValue(tags, key, v).Ok? <==> KnownValue(tags, key, v)
    ensures EncodeValue(tags, key, v).Err? ==> EncodeValue(tags, key, v).error.UnknownContainer?
    decreases v, 2
  {
    match v
    case Obj(fs) => EncodeFieldsFails(tags, fs, |fs|);
    case Arr(xs) =>
      if tags(key).Some? {
        EncodeItemsFails(tags, tags(key).value, xs, |xs|);
      }
    case _ =>
  }

  lemma {:induction false} EncodeFieldsFails(tags: string -> Option<string>, fs: Fields, i: nat)
    requires i <= |fs|
    ensures EncodeFields(tags, fs, i).Ok? <==> KnownFields(tags, fs, i)
    ensures EncodeFields(tags, fs, i).Err? ==> EncodeFields(tags, fs, i).error.UnknownContainer?
    decreases Obj(fs), 1, i
  {
    if i > 0 {
      EncodeFieldsFails(tags, fs, i - 1);
      EncodeValueFails(tags, fs[i - 1].0, fs[i - 1].1);
    }
  }

  lemma {:induction false} EncodeItemsFails(tags: string -> Option<string>, item: string, xs: seq<Json>, i: nat)
    requires i <= |xs|
    ensures EncodeItems(tags, item, xs, i).Ok? <==> KnownItems(tags, xs, i)
    ensures EncodeItems(tags, item, xs, i).Err? ==> EncodeItems(tags, item, xs, i).error.UnknownContainer?
    decreases Arr(xs), 1, i
  {
    if i > 0 {
      EncodeItemsFails(tags, item, xs, i - 1);
      if xs[i - 1].Obj? {
        EncodeFieldsFails(tags, xs[i - 1].fields, |xs[i - 1].fields|);
      }
    }
  }

  // ---------------------------------------------------------------------------
  // `_handle_SSLTLSInspectionRule_Identity`

  /** The tree `json_to_xml` returns is rooted at an element tagged with the
      entity, whatever post-pass ran; for the entities without a post-pass
      its children are the elements of the fields. */
  lemma EncodeRoot(tags: string -> Option<string>, entity: string, data: Fields)
    requires Encode(tags, entity, data).Ok?
    ensures EncodeFields(tags, data, |data|).Ok?
    ensures Encode(tags, entity, data).value.tag == entity
    ensures entity !in {"SSLTLSInspectionRule", "LocalServiceACL", "FirewallRule"} ==>
              Encode(tags, entity, data).value.children == EncodeFields(tags, data, |data|).value
  {
    var root := Elem(entity, None, map[], EncodeFields(tags, data, |data|).value);
    if entity == "LocalServiceACL" {
      MergeKeepsRoot(root);
    } else if entity == "FirewallRule" && HasPolicy(root) {
      LiftPivotsKeepsRoot(root);
    }
  }

  lemma MergeKeepsRoot(root: Elem)
    requires MergeDstHosts(root).Ok?
    ensures MergeDstHosts(root).value.tag == root.tag
  {
    var dp := FindDescendant(root, "DstHosts");
    if dp.Some? {
      var hp := FindDescendant(root, "Hosts");
      if hp.Some? && |At(root, hp.value).children| > 0 && hp.value[0] != dp.value[0] {
        assert ExtendAt(root, hp.value, root.children[dp.value[0]].children).tag == root.tag;
      }
    }
  }

  lemma LiftPivotsKeepsRoot(root: Elem)
    ensures LiftPivots(root).tag == root.tag
  {
    var r := LiftContainer(root, "AccessPaths", AccessPathContainers);
    assert r.tag == root.tag;
  }

  /** A second pass finds no `Identity/Member` left: the pass is idempotent. */
  lemma {:induction false} RenamedTwice(e: Elem, underIdentity: bool)
    ensures Renamed(Renamed(e, underIdentity), underIdentity) == Renamed(e, underIdentity)
    decreases e, 1
  {
    RenamedSeqTwice(e.children, e.tag == "Identity");
  }

  lemma {:induction false} RenamedSeqTwice(cs: seq<Elem>, underIdentity: bool)
    ensures RenamedSeq(RenamedSeq(cs, underIdentity), underIdentity) == RenamedSeq(cs, underIdentity)
    decreases cs, 0
  {
    forall j | 0 <= j < |cs|
      ensures Renamed(Renamed(cs[j], underIdentity), underIdentity) == Renamed(cs[j], underIdentity)
    {
      RenamedTwice(cs[j], underIdentity);
    }
  }

  lemma {:induction false} RenameIdentityMembersIdempotent(root: Elem)
    ensures RenameIdentityMembers(RenameIdentityMembers(root)) == RenameIdentityMembers(root)
  {
    RenamedSeqTwice(root.children, false);
  }

  /** The table variant `"Identity": "Members"` that the library leaves
      commented out. */
  function MembersVariant(tags: string -> Option<string>): string -> Option<string> {
    k => if k == "Identity" then Some("Members") else tags(k)
  }

  /** Data in which `Identity` only ever holds a list, and no list holds
      dicts as items tagged `Identity`. */
  predicate IdentityIsList(tags: string -> Option<string>, key: string, v: Json)
    decreases v, 2
  {
    match v
    case Obj(fs) => key != "Identity" && IdentityIsListFields(tags, fs, |fs|)
    case Arr(xs) => tags(key) != Some("Identity") && IdentityIsListItems(tags, xs, |xs|)
    case _ => true
  }

  predicate IdentityIsListFields(tags: string -> Option<string>, fs: Fields, i: nat)
    requires i <= |fs|
    decreases Obj(fs), 1, i
  {
    i == 0 || (IdentityIsListFields(tags, fs, i - 1) && IdentityIsList(tags, fs[i - 1].0, fs[i - 1].1))
  }

  predicate IdentityIsListItems(tags: string -> Option<string>, xs: seq<Json>, i: nat)
    requires i <= |xs|
    decreases Arr(xs), 1, i
  {
    i == 0 || (IdentityIsListItems(tags, xs, i - 1) &&
               (xs[i - 1].Obj? ==> IdentityIsListFields(tags, xs[i - 1].fields, |xs[i - 1].fields|)))
  }

  /** For such data, renaming after encoding is encoding with the variant
      table: the pass produces `<Identity><Members>..</Members></Identity>`. */
  lemma {:induction false} RenameEncodedValue(tags: string -> Option<string>, key: string, v: Json)
    requires tags("Identity") == Some("Member") && IdentityIsList(tags, key, v)
    ensures EncodeValue(MembersVariant(tags), key, v) ==
      if EncodeValue(tags, key, v).Ok? then Ok(Renamed(EncodeValue(tags, key, v).value, false))
      else EncodeValue(tags, key, v)
    decreases v, 2
  {
    var tags' := MembersVariant(tags);
    match v
    case Obj(fs) =>
      RenameEncodedFields(tags, fs, |fs|);
    case Arr(xs) =>
      if tags(key).Some? {
        var item := tags(key).value;
        RenameEncodedItems(tags, item, xs, |xs|, key == "Identity");
        assert tags'(key) == Some(if key == "Identity" && item == "Member" then "Members" else item);
      }
    case _ =>
  }

  lemma {:induction false} RenameEncodedFields(tags: string -> Option<string>, fs: Fields, i: nat)
    requires i <= |fs| && tags("Identity") == Some("Member") && IdentityIsListFields(tags, fs, i)
    ensures EncodeFields(MembersVariant(tags), fs, i) ==
      if EncodeFields(tags, fs, i).Ok? then Ok(RenamedSeq(EncodeFields(tags, fs, i).value, false))
      else EncodeFields(tags, fs, i)
    decreases Obj(fs), 1, i
  {
    if i > 0 {
      RenameEncodedFields(tags, fs, i - 1);
      RenameEncodedValue(tags, fs[i - 1].0, fs[i - 1].1);
      if EncodeFields(tags, fs, i).Ok? {
        var cs := EncodeFields(tags, fs, i - 1).value;
        var c := EncodeValue(tags, fs[i - 1].0, fs[i - 1].1).value;
        assert RenamedSeq(cs + [c], false) == RenamedSeq(cs, false) + [Renamed(c, false)];
      }
    }
  }

  lemma {:induction false} RenameEncodedItems(tags: string -> Option<string>, item: string, xs: seq<Json>, i: nat, underIdentity: bool)
    requires i <= |xs| && tags("Identity") == Some("Member") && IdentityIsListItems(tags, xs, i)
    requires item != "Identity"
    ensures var item' := if underIdentity && item == "Member" then "Members" else item;
      EncodeItems(MembersVariant(tags), item', xs, i) ==
      if EncodeItems(tags, item, xs, i).Ok? then Ok(RenamedSeq(EncodeItems(tags, item, xs, i).value, underIdentity))
      else EncodeItems(tags, item, xs, i)
    decreases Arr(xs), 1, i
  {
    if i > 0 {
      RenameEncodedItems(tags, item, xs, i - 1, underIdentity);
      var x := xs[i - 1];
      if x.Obj? {
        RenameEncodedFields(tags, x.fields, |x.fields|);
      }
      if EncodeItems(tags, item, xs, i).Ok? {
        var cs := EncodeItems(tags, item, xs, i - 1).value;
        var c := EncodeItem(tags, item, x).value;
        var item' := if underIdentity && item == "Member" then "Members" else item;
        assert EncodeItem(MembersVariant(tags), item', x) == Ok(Renamed(c, underIdentity));
        assert RenamedSeq(cs + [c], underIdentity) == RenamedSeq(cs, underIdentity) + [Renamed(c, underIdentity)];
      }
    }
  }
}
