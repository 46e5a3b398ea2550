/** Encoding then decoding gives the data back, for the data the two
    directions agree on. */
module RoundTrip {
  import opened Wrappers
  import opened Xml
  import opened JsonData
  import opened Decoding
  import opened DecodeProperties
  import opened Encoding
  import opened EncodeProperties

  /** The tags the decoder treats specially; plain data never uses them. */
  const Special: set<string> := {"Hosts", "AccessPaths", "Exceptions"}

  /** Data that survives the round trip. No key and no list-item tag is in
      `reserved`; every dict and every list is non-empty (an empty one
      encodes to an element without children, which decodes to ""); dicts sit
      under keys that are not list containers and lists under keys that are;
      list items are strs or dicts; no `None` anywhere (it decodes to ""). */
  predicate PlainValue(tags: string -> Option<string>, reserved: set<string>, key: string, v: Json)
    decreases v, 2
  {
    key !in reserved &&
    match v
    case Str(_) => true
    case Null => false
    case Obj(fs) => tags(key).None? && PlainFields(tags, reserved, fs)
    case Arr(xs) => tags(key).Some? && tags(key).value !in reserved && xs != [] && PlainItems(tags, reserved, xs, |xs|)
  }

  predicate PlainFields(tags: string -> Option<string>, reserved: set<string>, fs: Fields)
    decreases Obj(fs), 1
  {
    fs != [] && UniqueKeys(fs) && PlainEach(tags, reserved, fs, |fs|)
  }

  predicate PlainEach(tags: string -> Option<string>, reserved: set<string>, fs: Fields, i: nat)
    requires i <= |fs|
    decreases Obj(fs), 0, i
  {
    i == 0 || (PlainEach(tags, reserved, fs, i - 1) && PlainValue(tags, reserved, fs[i - 1].0, fs[i - 1].1))
  }

  predicate PlainItems(tags: string -> Option<string>, reserved: set<string>, xs: seq<Json>, i: nat)
    requires i <= |xs|
    decreases Arr(xs), 1, i
  {
    i == 0 ||
    (PlainItems(tags, reserved, xs, i - 1) &&
     (xs[i - 1].Str? || (xs[i - 1].Obj? && PlainFields(tags, reserved, xs[i - 1].fields))))
  }

  // ---------------------------------------------------------------------------
  // Plain data encodes without a KeyError.

  lemma {:induction false} PlainValueKnown(tags: string -> Option<string>, reserved: set<string>, key: string, v: Json)
    requires PlainValue(tags, reserved, key, v)
    ensures KnownValue(tags, key, v)
    decreases v, 2
  {
    match v
    case Obj(fs) => PlainEachKnown(tags, reserved, fs, |fs|);
    case Arr(xs) => PlainItemsKnown(tags, reserved, xs, |xs|);
    case _ =>
  }

  lemma {:induction false} PlainEachKnown(tags: string -> Option<string>, reserved: set<string>, fs: Fields, i: nat)
    requires i <= |fs| && PlainEach(tags, reserved, fs, i)
    ensures KnownFields(tags, fs, i)
    decreases Obj(fs), 0, i
  {
    if i > 0 {
      PlainEachKnown(tags, reserved, fs, i - 1);
      PlainValueKnown(tags, reserved, fs[i - 1].0, fs[i - 1].1);
    }
  }

  lemma {:induction false} PlainItemsKnown(tags: string -> Option<string>, reserved: set<string>, xs: seq<Json>, i: nat)
    requires i <= |xs| && PlainItems(tags, reserved, xs, i)
    ensures KnownItems(tags, xs, i)
    decreases Arr(xs), 1, i
  {
    if i > 0 {
      PlainItemsKnown(tags, reserved, xs, i - 1);
      if xs[i - 1].Obj? {
        PlainEachKnown(tags, reserved, xs[i - 1].fields, |xs[i - 1].fields|);
      }
    }
  }

  // ---------------------------------------------------------------------------
  // Decoding the encoded tree. The decoder's table may differ from the
  // encoder's as long as both name the same list containers.

  ghost predicate SameContainers(enc: string -> Option<string>, dec: string -> Option<string>) {
    forall k :: enc(k).Some? <==> dec(k).Some?
  }

  /** A dict comes back from the element its fields were encoded under,
      whatever that element's tag. */
  lemma {:induction false} RoundTripFields(enc: string -> Option<string>, dec: string -> Option<string>,
                                           reserved: set<string>, fs: Fields, tag: string)
    requires SameContainers(enc, dec) && Special <= reserved && PlainFields(enc, reserved, fs)
    ensures EncodeFields(enc, fs, |fs|).Ok?
    ensures Decode(dec, Elem(tag, None, map[], EncodeFields(enc, fs, |fs|).value)) == Ok(Obj(fs))
    decreases Obj(fs), 1
  {
    PlainEachKnown(enc, reserved, fs, |fs|);
    EncodeFieldsFails(enc, fs, |fs|);
    EncodeFieldsPointwise(enc, fs, |fs|);
    var e := Elem(tag, None, map[], EncodeFields(enc, fs, |fs|).value);
    RoundTripAll(enc, dec, reserved, fs, e);
    DecodeOfFields(dec, e, fs);
  }

  /** All the fields, encoded as the children of `e`, are read back as the
      dict itself. */
  lemma {:induction false} RoundTripAll(enc: string -> Option<string>, dec: string -> Option<string>,
                                        reserved: set<string>, fs: Fields, e: Elem)
    requires SameContainers(enc, dec) && Special <= reserved && PlainFields(enc, reserved, fs)
    requires EncodeFields(enc, fs, |fs|) == Ok(e.children)
    ensures |e.children| == |fs|
    ensures DecodeFields(dec, e, |e.children|) == Ok(fs)
    decreases Obj(fs), 0
  {
    EncodeFieldsPointwise(enc, fs, |fs|);
    assert e.children[0..|fs|] == e.children;
    RoundTripEach(enc, dec, reserved, fs, e, 0, |fs|, []);
    AssignAllFromEmpty(fs);
  }

  /** Assigning distinct keys to an empty dict gives them back in order. */
  lemma AssignAllFromEmpty(fs: Fields)
    requires UniqueKeys(fs)
    ensures AssignAll([], fs[..|fs|]) == fs
  {
    AssignAllFresh([], fs);
    assert fs[..|fs|] == fs && [] + fs == fs;
  }

  lemma DecodeOfFields(dec: string -> Option<string>, e: Elem, fs: Fields)
    requires |e.children| > 0 && DecodeFields(dec, e, |e.children|) == Ok(fs)
    ensures Decode(dec, e) == Ok(Obj(fs))
  {
  }

  /** The first `i` fields, encoded into the children of `e` from index
      `off` on, come back in order: they are the dict assignments
      `xml_to_json` makes after those of the first `off` children. */
  lemma {:induction false} RoundTripEach(enc: string -> Option<string>, dec: string -> Option<string>,
                                         reserved: set<string>, fs: Fields, e: Elem, off: nat, i: nat, acc: Fields)
    requires SameContainers(enc, dec) && Special <= reserved
    requires i <= |fs| && off + i <= |e.children| && PlainEach(enc, reserved, fs, i)
    requires DecodeFields(dec, e, off) == Ok(acc)
    requires EncodeFields(enc, fs, i) == Ok(e.children[off..off + i])
    ensures DecodeFields(dec, e, off + i) == Ok(AssignAll(acc, fs[..i]))
    decreases Obj(fs), 0, i
  {
    if i > 0 {
      EncodeFieldsSlice(enc, fs, e.children, off, i);
      RoundTripEach(enc, dec, reserved, fs, e, off, i - 1, acc);
      RoundTripStep(enc, dec, reserved, fs, e, off, i, acc);
    } else {
      assert fs[..0] == [];
    }
  }

  /** The `i`-th field, encoded as the child after those of the first
      `i - 1`, adds its one assignment. */
  lemma {:induction false} RoundTripStep(enc: string -> Option<string>, dec: string -> Option<string>,
                                         reserved: set<string>, fs: Fields, e: Elem, off: nat, i: nat, acc: Fields)
    requires SameContainers(enc, dec) && Special <= reserved
    requires 0 < i <= |fs| && off + i <= |e.children| && PlainValue(enc, reserved, fs[i - 1].0, fs[i - 1].1)
    requires EncodeValue(enc, fs[i - 1].0, fs[i - 1].1) == Ok(e.children[off + i - 1])
    requires DecodeFields(dec, e, off + i - 1) == Ok(AssignAll(acc, fs[..i - 1]))
    ensures DecodeFields(dec, e, off + i) == Ok(AssignAll(acc, fs[..i]))
    decreases Obj(fs), 0, i, 0
  {
    var n := off + i;
    RoundTripValue(enc, dec, reserved, fs[i - 1].0, fs[i - 1].1);
    DecodeFieldsStep(dec, e, n, e.children[n - 1], AssignAll(acc, fs[..i - 1]), [fs[i - 1]]);
    AssignAllSnoc(acc, fs, i);
  }

  /** The fields encoded into a slice of `cs`: the last one, and the slice
      one shorter. */
  lemma EncodeFieldsSlice(tags: string -> Option<string>, fs: Fields, cs: seq<Elem>, off: nat, i: nat)
    requires 0 < i <= |fs| && off + i <= |cs| && EncodeFields(tags, fs, i) == Ok(cs[off..off + i])
    ensures EncodeFields(tags, fs, i - 1) == Ok(cs[off..off + i - 1])
    ensures EncodeValue(tags, fs[i - 1].0, fs[i - 1].1) == Ok(cs[off + i - 1])
  {
    EncodeFieldsInit(tags, fs, i, cs[off..off + i]);
    assert cs[off..off + i][..i - 1] == cs[off..off + i - 1];
  }

  lemma {:induction false} DecodeFieldsStep(dec: string -> Option<string>, e: Elem, n: nat, c: Elem, acc: Fields, es: Fields)
    requires 0 < n <= |e.children| && c == e.children[n - 1]
    requires DecodeFields(dec, e, n - 1) == Ok(acc) && ChildEntries(dec, c) == Ok(es)
    ensures DecodeFields(dec, e, n) == Ok(AssignAll(acc, es))
  {
  }

  /** One field comes back as the one assignment `key: v`. */
  lemma {:induction false} RoundTripValue(enc: string -> Option<string>, dec: string -> Option<string>,
                                          reserved: set<string>, key: string, v: Json)
    requires SameContainers(enc, dec) && Special <= reserved && PlainValue(enc, reserved, key, v)
    ensures EncodeValue(enc, key, v).Ok?
    ensures ChildEntries(dec, EncodeValue(enc, key, v).value) == Ok([(key, v)])
    decreases v, 3
  {
    assert enc(key).Some? <==> dec(key).Some?;
    match v
    case Str(s) =>
    case Obj(fs) =>
      RoundTripFields(enc, dec, reserved, fs, key);
    case Arr(xs) =>
      RoundTripList(enc, dec, reserved, key, xs);
  }

  /** A list comes back item by item. */
  lemma {:induction false} RoundTripList(enc: string -> Option<string>, dec: string -> Option<string>,
                                         reserved: set<string>, key: string, xs: seq<Json>)
    requires SameContainers(enc, dec) && Special <= reserved && PlainValue(enc, reserved, key, Arr(xs))
    ensures EncodeValue(enc, key, Arr(xs)).Ok?
    ensures ChildEntries(dec, EncodeValue(enc, key, Arr(xs)).value) == Ok([(key, Arr(xs))])
    decreases Arr(xs), 2
  {
    assert dec(key).Some?;
    var item := enc(key).value;
    RoundTripItems(enc, dec, reserved, item, xs, |xs|);
    EncodeItemsPointwise(enc, item, xs, |xs|);
    var e := EncodeValue(enc, key, Arr(xs)).value;
    DecodeItemsPointwise(dec, e, |xs|);
    assert DecodeItems(dec, e, |xs|).value == xs;
  }

  /** Each list item comes back as itself, whatever its tag. */
  lemma {:induction false} RoundTripItems(enc: string -> Option<string>, dec: string -> Option<string>,
                                          reserved: set<string>, item: string, xs: seq<Json>, i: nat)
    requires SameContainers(enc, dec) && Special <= reserved
    requires i <= |xs| && PlainItems(enc, reserved, xs, i)
    ensures forall j :: 0 <= j < i ==>
      EncodeItem(enc, item, xs[j]).Ok? && Decode(dec, EncodeItem(enc, item, xs[j]).value) == Ok(xs[j])
    decreases Arr(xs), 1, i
  {
    if i > 0 {
      RoundTripItems(enc, dec, reserved, item, xs, i - 1);
      if xs[i - 1].Obj? {
        RoundTripFields(enc, dec, reserved, xs[i - 1].fields, item);
      }
    }
  }
}

module RoundTripEntities {
  import opened Wrappers
  import opened Xml
  import opened JsonData
  import opened Decoding
  import opened Encoding
  import opened EncodeProperties
  import opened RoundTrip

  /** The tags the post-passes and the decoder look for. */
  const Reserved: set<string> := {"Hosts", "DstHosts", "AccessPaths", "Exceptions"}

  lemma MembersNotReserved()
    ensures "Members" !in Reserved
  {
    assert "Members"[0] == 'M';
    assert "Hosts"[0] == 'H' && "DstHosts"[0] == 'D' && "AccessPaths"[0] == 'A' && "Exceptions"[0] == 'E';
  }

  /** No element encoded from plain data carries a reserved tag, at any depth. */
  lemma {:induction false} NoReservedValue(tags: string -> Option<string>, reserved: set<string>, key: string, v: Json, t: string)
    requires PlainValue(tags, reserved, key, v) && t in reserved
    ensures EncodeValue(tags, key, v).Ok?
    ensures EncodeValue(tags, key, v).value.tag != t && !HasDescendant(EncodeValue(tags, key, v).value, t)
    decreases v, 2
  {
    PlainValueKnown(tags, reserved, key, v);
    EncodeValueFails(tags, key, v);
    match v
    case Obj(fs) =>
      NoReservedEach(tags, reserved, fs, |fs|, t);
    case Arr(xs) =>
      NoReservedItems(tags, reserved, tags(key).value, xs, |xs|, t);
    case _ =>
  }

  lemma {:induction false} NoReservedEach(tags: string -> Option<string>, reserved: set<string>, fs: Fields, i: nat, t: string)
    requires i <= |fs| && PlainEach(tags, reserved, fs, i) && t in reserved
    ensures EncodeFields(tags, fs, i).Ok?
    ensures var cs := EncodeFields(tags, fs, i).value;
      forall j :: 0 <= j < |cs| ==> cs[j].tag != t && !HasDescendant(cs[j], t)
    decreases Obj(fs), 1, i
  {
    if i > 0 {
      NoReservedEach(tags, reserved, fs, i - 1, t);
      NoReservedValue(tags, reserved, fs[i - 1].0, fs[i - 1].1, t);
    }
  }

  lemma {:induction false} NoReservedItems(tags: string -> Option<string>, reserved: set<string>, item: string, xs: seq<Json>, i: nat, t: string)
    requires i <= |xs| && PlainItems(tags, reserved, xs, i) && t in reserved && item != t
    ensures EncodeItems(tags, item, xs, i).Ok?
    ensures var cs := EncodeItems(tags, item, xs, i).value;
      forall j :: 0 <= j < |cs| ==> cs[j].tag != t && !HasDescendant(cs[j], t)
    decreases Arr(xs), 1, i
  {
    if i > 0 {
      NoReservedItems(tags, reserved, item, xs, i - 1, t);
      if xs[i - 1].Obj? {
        var fs := xs[i - 1].fields;
        NoReservedEach(tags, reserved, fs, |fs|, t);
      }
    }
  }
}

module RoundTripTheorems {
  import opened Wrappers
  import opened Xml
  import opened JsonData
  import opened Decoding
  import opened Encoding
  import opened EncodeProperties
  import opened RoundTrip
  import opened RoundTripEntities

  /** The `Members` table variant names the same containers, and data plain
      for the library's table is plain for the variant. */
  lemma {:induction false} PlainValueVariant(tags: string -> Option<string>, reserved: set<string>, key: string, v: Json)
    requires tags("Identity").Some? && "Members" !in reserved && PlainValue(tags, reserved, key, v)
    ensures PlainValue(MembersVariant(tags), reserved, key, v)
    decreases v, 2
  {
    match v
    case Obj(fs) => PlainEachVariant(tags, reserved, fs, |fs|);
    case Arr(xs) => PlainItemsVariant(tags, reserved, xs, |xs|);
    case _ =>
  }

  lemma {:induction false} PlainEachVariant(tags: string -> Option<string>, reserved: set<string>, fs: Fields, i: nat)
    requires i <= |fs| && tags("Identity").Some? && "Members" !in reserved && PlainEach(tags, reserved, fs, i)
    ensures PlainEach(MembersVariant(tags), reserved, fs, i)
    decreases Obj(fs), 1, i
  {
    if i > 0 {
      PlainEachVariant(tags, reserved, fs, i - 1);
      PlainValueVariant(tags, reserved, fs[i - 1].0, fs[i - 1].1);
    }
  }

  lemma {:induction false} PlainItemsVariant(tags: string -> Option<string>, reserved: set<string>, xs: seq<Json>, i: nat)
    requires i <= |xs| && tags("Identity").Some? && "Members" !in reserved && PlainItems(tags, reserved, xs, i)
    ensures PlainItems(MembersVariant(tags), reserved, xs, i)
    decreases Arr(xs), 1, i
  {
    if i > 0 {
      PlainItemsVariant(tags, reserved, xs, i - 1);
      if xs[i - 1].Obj? {
        PlainEachVariant(tags, reserved, xs[i - 1].fields, |xs[i - 1].fields|);
      }
    }
  }

  /** The `LocalServiceACL` pass leaves a tree without `DstHosts` alone. */
  lemma {:induction false} MergeWithoutDstHosts(root: Elem)
    requires !HasDescendant(root, "DstHosts")
    ensures MergeDstHosts(root) == Ok(root)
  {
  }

  /** The `FirewallRule` pass leaves a tree without `AccessPaths` and
      `Exceptions` alone. */
  lemma {:induction false} LiftWithoutPivots(root: Elem)
    requires !HasDescendant(root, "AccessPaths") && !HasDescendant(root, "Exceptions")
    ensures LiftPivots(root) == root
  {
    forall i | 0 <= i < |root.children|
      ensures FindChild(root.children[i].children, "AccessPaths").None?
      ensures FindChild(root.children[i].children, "Exceptions").None?
    {
      var c := root.children[i];
      assert !HasDescendant(c, "AccessPaths") && !HasDescendant(c, "Exceptions");
      forall j | 0 <= j < |c.children|
        ensures c.children[j].tag != "AccessPaths" && c.children[j].tag != "Exceptions"
      {
      }
    }
  }

  /** Plain data encodes to a tree no post-pass but the rename changes. */
  lemma {:induction false} EncodePlain(tags: string -> Option<string>, entity: string, data: Fields)
    requires PlainFields(tags, Reserved, data) && entity != "SSLTLSInspectionRule"
    ensures EncodeFields(tags, data, |data|).Ok?
    ensures Encode(tags, entity, data) == Ok(Elem(entity, None, map[], EncodeFields(tags, data, |data|).value))
  {
    PlainRoot(tags, entity, data);
    var root := Elem(entity, None, map[], EncodeFields(tags, data, |data|).value);
    MergeWithoutDstHosts(root);
    LiftWithoutPivots(root);
  }

  /** The tree `_json_to_xml` builds for plain data holds no tag the
      post-passes look for. */
  lemma {:induction false} PlainRoot(tags: string -> Option<string>, entity: string, data: Fields)
    requires PlainFields(tags, Reserved, data)
    ensures EncodeFields(tags, data, |data|).Ok?
    ensures var root := Elem(entity, None, map[], EncodeFields(tags, data, |data|).value);
      !HasDescendant(root, "DstHosts") && !HasDescendant(root, "AccessPaths") && !HasDescendant(root, "Exceptions")
  {
    NoReservedEach(tags, Reserved, data, |data|, "DstHosts");
    NoReservedEach(tags, Reserved, data, |data|, "AccessPaths");
    NoReservedEach(tags, Reserved, data, |data|, "Exceptions");
  }

  /** For `SSLTLSInspectionRule` the rename pass gives the tree that the
      `Members` table variant encodes. */
  lemma {:induction false} EncodeRenamed(tags: string -> Option<string>, data: Fields)
    requires PlainFields(tags, Reserved, data)
    requires tags("Identity") == Some("Member") && IdentityIsListFields(tags, data, |data|)
    ensures EncodeFields(MembersVariant(tags), data, |data|).Ok?
    ensures Encode(tags, "SSLTLSInspectionRule", data) ==
      Ok(Elem("SSLTLSInspectionRule", None, map[], EncodeFields(MembersVariant(tags), data, |data|).value))
  {
    NoReservedEach(tags, Reserved, data, |data|, "DstHosts");
    RenameEncodedFields(tags, data, |data|);
  }

  /** `xml_to_json(json_to_xml(entity, data)) == data` for plain data and
      every entity. The post-passes leave a plain tree alone (it has no
      `DstHosts`, `AccessPaths` or `Exceptions`), except the rename of
      `SSLTLSInspectionRule`, whose `Members` items decode like any items. */
  lemma {:induction false} RoundTripEntity(tags: string -> Option<string>, entity: string, data: Fields)
    requires PlainFields(tags, Reserved, data)
    requires entity == "SSLTLSInspectionRule" ==>
               tags("Identity") == Some("Member") && IdentityIsListFields(tags, data, |data|)
    ensures Encode(tags, entity, data).Ok?
    ensures Decode(tags, Encode(tags, entity, data).value) == Ok(Obj(data))
  {
    if entity == "SSLTLSInspectionRule" {
      RoundTripRenamed(tags, data);
    } else {
      RoundTripPlain(tags, entity, data);
    }
  }

  lemma {:induction false} RoundTripPlain(tags: string -> Option<string>, entity: string, data: Fields)
    requires PlainFields(tags, Reserved, data) && entity != "SSLTLSInspectionRule"
    ensures Encode(tags, entity, data).Ok?
    ensures Decode(tags, Encode(tags, entity, data).value) == Ok(Obj(data))
  {
    EncodePlain(tags, entity, data);
    assert SameContainers(tags, tags);
    RoundTripFields(tags, tags, Reserved, data, entity);
  }

  lemma {:induction false} RoundTripRenamed(tags: string -> Option<string>, data: Fields)
    requires PlainFields(tags, Reserved, data)
    requires tags("Identity") == Some("Member") && IdentityIsListFields(tags, data, |data|)
    ensures Encode(tags, "SSLTLSInspectionRule", data).Ok?
    ensures Decode(tags, Encode(tags, "SSLTLSInspectionRule", data).value) == Ok(Obj(data))
  {
    EncodeRenamed(tags, data);
    PlainForVariant(tags, data);
    RoundTripFields(MembersVariant(tags), tags, Reserved, data, "SSLTLSInspectionRule");
  }

  /** What the generic round trip needs of the `Members` variant. */
  lemma {:induction false} PlainForVariant(tags: string -> Option<string>, data: Fields)
    requires PlainFields(tags, Reserved, data) && tags("Identity").Some?
    ensures PlainFields(MembersVariant(tags), Reserved, data) && SameContainers(MembersVariant(tags), tags)
  {
    MembersNotReserved();
    assert PlainEach(tags, Reserved, data, |data|);
    PlainEachVariant(tags, Reserved, data, |data|);
    assert SameContainers(MembersVariant(tags), tags);
  }
}
