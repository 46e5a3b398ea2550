/** Decoding then encoding gives the tree back, for the trees the two
    directions agree on: `json_to_xml(entity, xml_to_json(e))` rebuilds the
    children of `e` under a root named `entity`. */
module ReverseRoundTrip {
  import opened Wrappers
  import opened Xml
  import opened JsonData
  import opened Decoding
  import opened Encoding
  import opened RoundTrip
  import opened RoundTripEntities
  import opened RoundTripTheorems

  /** A tree that survives the round trip, as the child `c` of a dict. No
      attributes and no tag in `reserved`; a childless element has text (an
      element without text decodes to "", which encodes as text); an element
      with children has no text. Its children are then the items of a list
      container when its tag is in the table, all tagged as the table says,
      and otherwise fields with distinct tags (a repeated tag would be
      overwritten in the dict). */
  predicate CanonicalChild(tags: string -> Option<string>, reserved: set<string>, c: Elem)
    decreases c, 2
  {
    c.attrs == map[] && c.tag !in reserved &&
    if |c.children| == 0 then c.text.Some?
    else
      c.text.None? &&
      match tags(c.tag)
      case Some(item) => item !in reserved && CanonicalItems(tags, reserved, item, c.children)
      case None => CanonicalFields(tags, reserved, c.children)
  }

  /** Sibling fields: distinct tags, each a canonical child. */
  predicate CanonicalFields(tags: string -> Option<string>, reserved: set<string>, cs: seq<Elem>)
    decreases cs, 1
  {
    (forall i, j :: 0 <= i < j < |cs| ==> cs[i].tag != cs[j].tag) &&
    forall i :: 0 <= i < |cs| ==> CanonicalChild(tags, reserved, cs[i])
  }

  /** The items of a list container, all tagged `item`. */
  predicate CanonicalItems(tags: string -> Option<string>, reserved: set<string>, item: string, cs: seq<Elem>)
    decreases cs, 1
  {
    forall i :: 0 <= i < |cs| ==> cs[i].tag == item && CanonicalItem(tags, reserved, cs[i])
  }

  /** One item: a str when it has no children, otherwise a dict of fields. */
  predicate CanonicalItem(tags: string -> Option<string>, reserved: set<string>, x: Elem)
    decreases x, 2
  {
    x.attrs == map[] &&
    if |x.children| == 0 then x.text.Some?
    else x.text.None? && CanonicalFields(tags, reserved, x.children)
  }

  /** The tags of `cs`, in document order. */
  function TagsOf(cs: seq<Elem>): seq<string> {
    seq(|cs|, j requires 0 <= j < |cs| => cs[j].tag)
  }

  // ---------------------------------------------------------------------------
  // A canonical tree decodes to plain data that encodes back to it.

  /** A canonical child makes exactly one assignment, under its own tag, of a
      plain value that encodes back to the child. */
  lemma {:induction false} ReverseChild(tags: string -> Option<string>, reserved: set<string>, c: Elem)
    requires Special <= reserved && CanonicalChild(tags, reserved, c)
    ensures ChildEntries(tags, c).Ok?
    ensures var es := ChildEntries(tags, c).value;
      |es| == 1 && es[0].0 == c.tag && EncodeValue(tags, c.tag, es[0].1) == Ok(c) &&
      PlainValue(tags, reserved, c.tag, es[0].1)
    decreases c, 3
  {
    if |c.children| > 0 {
      if tags(c.tag).Some? {
        ReverseItems(tags, reserved, tags(c.tag).value, c, |c.children|);
        assert c.children[..|c.children|] == c.children;
      } else {
        ReverseNode(tags, reserved, c);
      }
    }
  }

  /** An element whose children are canonical fields decodes to a plain dict
      whose fields encode back to those children. */
  lemma {:induction false} ReverseNode(tags: string -> Option<string>, reserved: set<string>, e: Elem)
    requires Special <= reserved && |e.children| > 0 && CanonicalFields(tags, reserved, e.children)
    ensures Decode(tags, e).Ok? && Decode(tags, e).value.Obj?
    ensures var fs := Decode(tags, e).value.fields;
      PlainFields(tags, reserved, fs) && EncodeFields(tags, fs, |fs|) == Ok(e.children)
    decreases e, 2
  {
    ReverseFields(tags, reserved, e, |e.children|);
    assert e.children[..|e.children|] == e.children;
  }

  /** After the first `i` canonical fields the dict holds one entry per
      child, keyed by its tag in document order, and encodes back to those
      children. */
  lemma {:induction false} ReverseFields(tags: string -> Option<string>, reserved: set<string>, e: Elem, i: nat)
    requires Special <= reserved && i <= |e.children| && CanonicalFields(tags, reserved, e.children)
    ensures DecodeFields(tags, e, i).Ok?
    ensures var fs := DecodeFields(tags, e, i).value;
      |fs| == i && Keys(fs) == TagsOf(e.children[..i]) && UniqueKeys(fs) &&
      PlainEach(tags, reserved, fs, i) && EncodeFields(tags, fs, i) == Ok(e.children[..i])
    decreases e, 1, i
  {
    if i > 0 {
      ReverseFields(tags, reserved, e, i - 1);
      var c := e.children[i - 1];
      ReverseChild(tags, reserved, c);
      var acc := DecodeFields(tags, e, i - 1).value;
      var entry := ChildEntries(tags, c).value[0];
      FieldsStep(tags, reserved, e, i, acc, entry);
    }
  }

  /** One more canonical field appends its entry, keeping everything the
      first `i - 1` fields established. */
  lemma FieldsStep(tags: string -> Option<string>, reserved: set<string>, e: Elem, i: nat, acc: Fields, entry: (string, Json))
    requires 0 < i <= |e.children| && CanonicalFields(tags, reserved, e.children)
    requires DecodeFields(tags, e, i - 1) == Ok(acc) && ChildEntries(tags, e.children[i - 1]) == Ok([entry])
    requires |acc| == i - 1 && Keys(acc) == TagsOf(e.children[..i - 1]) && UniqueKeys(acc)
    requires PlainEach(tags, reserved, acc, i - 1) && EncodeFields(tags, acc, i - 1) == Ok(e.children[..i - 1])
    requires entry.0 == e.children[i - 1].tag && EncodeValue(tags, entry.0, entry.1) == Ok(e.children[i - 1])
    requires PlainValue(tags, reserved, entry.0, entry.1)
    ensures DecodeFields(tags, e, i) == Ok(acc + [entry])
    ensures var fs := acc + [entry];
      Keys(fs) == TagsOf(e.children[..i]) && UniqueKeys(fs) &&
      PlainEach(tags, reserved, fs, i) && EncodeFields(tags, fs, i) == Ok(e.children[..i])
  {
    FreshTag(tags, reserved, e, i, acc);
    AppendEntry(acc, entry);
    DecodeFieldsStep(tags, e, i, e.children[i - 1], acc, [entry]);
    TagsStep(e.children, i);
    EncodeStep(tags, reserved, e.children, i, acc, entry);
  }

  /** The encoding side of `FieldsStep`. */
  lemma EncodeStep(tags: string -> Option<string>, reserved: set<string>, cs: seq<Elem>, i: nat, acc: Fields, entry: (string, Json))
    requires 0 < i <= |cs| && |acc| == i - 1
    requires PlainEach(tags, reserved, acc, i - 1) && EncodeFields(tags, acc, i - 1) == Ok(cs[..i - 1])
    requires EncodeValue(tags, entry.0, entry.1) == Ok(cs[i - 1]) && PlainValue(tags, reserved, entry.0, entry.1)
    ensures PlainEach(tags, reserved, acc + [entry], i) && EncodeFields(tags, acc + [entry], i) == Ok(cs[..i])
  {
    EncodeFieldsSnoc(tags, acc, entry, i - 1);
    PlainEachSnoc(tags, reserved, acc, entry, i - 1);
    assert cs[..i] == cs[..i - 1] + [cs[i - 1]];
  }

  /** The tag of a field is not among the tags of the fields before it.
      This and `TagsStep` are lemmas of their own to keep `FieldsStep` small. */
  lemma FreshTag(tags: string -> Option<string>, reserved: set<string>, e: Elem, i: nat, acc: Fields)
    requires 0 < i <= |e.children| && CanonicalFields(tags, reserved, e.children)
    requires Keys(acc) == TagsOf(e.children[..i - 1])
    ensures e.children[i - 1].tag !in Keys(acc)
  {
  }

  lemma TagsStep(cs: seq<Elem>, i: nat)
    requires 0 < i <= |cs|
    ensures TagsOf(cs[..i]) == TagsOf(cs[..i - 1]) + [cs[i - 1].tag]
  {
  }

  /** Assigning a fresh key appends it and keeps the keys unique. */
  lemma AppendEntry(acc: Fields, entry: (string, Json))
    requires entry.0 !in Keys(acc) && UniqueKeys(acc)
    ensures AssignAll(acc, [entry]) == acc + [entry]
    ensures Keys(acc + [entry]) == Keys(acc) + [entry.0] && UniqueKeys(acc + [entry])
  {
    AssignFresh(acc, entry.0, entry.1);
    assert AssignAll(acc, [entry]) == Assign(acc, entry.0, entry.1);
    AssignUnique(acc, entry.0, entry.1);
    KeysConcat(acc, [entry]);
    assert Keys([entry]) == [entry.0];
  }

  /** The first `i` items of a canonical list container decode to plain
      items that encode back to them. */
  lemma {:induction false} ReverseItems(tags: string -> Option<string>, reserved: set<string>, item: string, c: Elem, i: nat)
    requires Special <= reserved && i <= |c.children| && CanonicalItems(tags, reserved, item, c.children)
    ensures DecodeItems(tags, c, i).Ok?
    ensures var xs := DecodeItems(tags, c, i).value;
      |xs| == i && PlainItems(tags, reserved, xs, i) && EncodeItems(tags, item, xs, i) == Ok(c.children[..i])
    decreases c, 1, i
  {
    if i > 0 {
      ReverseItems(tags, reserved, item, c, i - 1);
      var x := c.children[i - 1];
      ReverseItem(tags, reserved, item, x);
      var xs := DecodeItems(tags, c, i - 1).value;
      var v := Decode(tags, x).value;
      EncodeItemsSnoc(tags, item, xs, v, i - 1);
      PlainItemsSnoc(tags, reserved, xs, v, i - 1);
      assert c.children[..i] == c.children[..i - 1] + [x];
    }
  }

  /** A canonical item decodes to a str or a plain dict that encodes back
      to the item. */
  lemma {:induction false} ReverseItem(tags: string -> Option<string>, reserved: set<string>, item: string, x: Elem)
    requires Special <= reserved && x.tag == item && CanonicalItem(tags, reserved, x)
    ensures Decode(tags, x).Ok?
    ensures var v := Decode(tags, x).value;
      (v.Str? || (v.Obj? && PlainFields(tags, reserved, v.fields))) && EncodeItem(tags, item, v) == Ok(x)
    decreases x, 3
  {
    if |x.children| > 0 {
      ReverseNode(tags, reserved, x);
    }
  }

  // ---------------------------------------------------------------------------
  // Appending one field or item leaves the earlier ones alone.

  lemma {:induction false} EncodeFieldsSnoc(tags: string -> Option<string>, fs: Fields, f: (string, Json), i: nat)
    requires i <= |fs|
    ensures EncodeFields(tags, fs + [f], i) == EncodeFields(tags, fs, i)
    decreases i
  {
    if i > 0 {
      EncodeFieldsSnoc(tags, fs, f, i - 1);
      assert (fs + [f])[i - 1] == fs[i - 1];
    }
  }

  lemma {:induction false} PlainEachSnoc(tags: string -> Option<string>, reserved: set<string>, fs: Fields, f: (string, Json), i: nat)
    requires i <= |fs|
    ensures PlainEach(tags, reserved, fs + [f], i) == PlainEach(tags, reserved, fs, i)
    decreases i
  {
    if i > 0 {
      PlainEachSnoc(tags, reserved, fs, f, i - 1);
      assert (fs + [f])[i - 1] == fs[i - 1];
    }
  }

  lemma {:induction false} EncodeItemsSnoc(tags: string -> Option<string>, item: string, xs: seq<Json>, x: Json, i: nat)
    requires i <= |xs|
    ensures EncodeItems(tags, item, xs + [x], i) == EncodeItems(tags, item, xs, i)
    decreases i
  {
    if i > 0 {
      EncodeItemsSnoc(tags, item, xs, x, i - 1);
      assert (xs + [x])[i - 1] == xs[i - 1];
    }
  }

  lemma {:induction false} PlainItemsSnoc(tags: string -> Option<string>, reserved: set<string>, xs: seq<Json>, x: Json, i: nat)
    requires i <= |xs|
    ensures PlainItems(tags, reserved, xs + [x], i) == PlainItems(tags, reserved, xs, i)
    decreases i
  {
    if i > 0 {
      PlainItemsSnoc(tags, reserved, xs, x, i - 1);
      assert (xs + [x])[i - 1] == xs[i - 1];
    }
  }

  // ---------------------------------------------------------------------------
  // Whole entities.

  /** `json_to_xml(entity, xml_to_json(e))` gives back the children of `e`
      under a root named `entity`, for every entity but
      `SSLTLSInspectionRule`: the post-passes find nothing to rewrite in a
      canonical tree. */
  lemma {:induction false} ReverseRoundTripEntity(tags: string -> Option<string>, entity: string, e: Elem)
    requires |e.children| > 0 && CanonicalFields(tags, Reserved, e.children)
    requires entity != "SSLTLSInspectionRule"
    ensures Decode(tags, e).Ok? && Decode(tags, e).value.Obj?
    ensures Encode(tags, entity, Decode(tags, e).value.fields) == Ok(Elem(entity, None, map[], e.children))
  {
    ReverseNode(tags, Reserved, e);
    EncodePlain(tags, entity, Decode(tags, e).value.fields);
  }

  /** For `SSLTLSInspectionRule` the tree comes back with the rename pass
      applied: the `Member` items of each `Identity` below the root are
      renamed `Members`, and nothing else changes. */
  lemma {:induction false} ReverseRoundTripRenamed(tags: string -> Option<string>, e: Elem)
    requires |e.children| > 0 && CanonicalFields(tags, Reserved, e.children)
    ensures Decode(tags, e).Ok? && Decode(tags, e).value.Obj?
    ensures Encode(tags, "SSLTLSInspectionRule", Decode(tags, e).value.fields) ==
      Ok(RenameIdentityMembers(Elem("SSLTLSInspectionRule", None, map[], e.children)))
  {
    ReverseNode(tags, Reserved, e);
  }
}
