/** What `xml_to_json` promises about the data it builds. */
module DecodeProperties {
  import opened Wrappers
  import opened Xml
  import opened JsonData
  import opened Decoding

  // ---------------------------------------------------------------------------
  // Pivot entries

  /** `c` is stored as a str under `f`: its tag is `f` and it is no list child. */
  predicate ScalarChild(rules: PivotRules, c: Elem, f: string) {
    c.tag == f && ListFieldFor(rules.lists, c.tag).None?
  }

  /** `c` appends its text to the list field `f`. */
  predicate ListChild(rules: PivotRules, c: Elem, f: string) {
    ListFieldFor(rules.lists, c.tag) == Some(f)
  }

  /** A list child of `b` appends to the field that `a` stored a str under. */
  predicate Clash(rules: PivotRules, a: Elem, b: Elem) {
    ListFieldFor(rules.lists, a.tag).None? && ListChild(rules, b, a.tag)
  }

  /** The texts the list children of `cs` append to `f`, in document order. */
  function ListTexts(cs: seq<Elem>, rules: PivotRules, f: string): seq<Json> {
    if cs == [] then []
    else
      var last := cs[|cs| - 1];
      ListTexts(cs[..|cs| - 1], rules, f) + (if ListChild(rules, last, f) then [TextItem(last.text)] else [])
  }

  /** Some child of `cs` is stored as a str under `f`. */
  predicate HasScalar(cs: seq<Elem>, rules: PivotRules, f: string) {
    cs != [] && (HasScalar(cs[..|cs| - 1], rules, f) || ScalarChild(rules, cs[|cs| - 1], f))
  }

  lemma {:induction false} HasScalarExists(cs: seq<Elem>, rules: PivotRules, f: string)
    ensures HasScalar(cs, rules, f) <==> exists a :: 0 <= a < |cs| && ScalarChild(rules, cs[a], f)
    decreases |cs|
  {
    if cs != [] {
      var init := cs[..|cs| - 1];
      HasScalarExists(init, rules, f);
      if exists a :: 0 <= a < |cs| && ScalarChild(rules, cs[a], f) {
        var a :| 0 <= a < |cs| && ScalarChild(rules, cs[a], f);
        if a < |cs| - 1 {
          assert ScalarChild(rules, init[a], f);
        }
      }
      if HasScalar(init, rules, f) {
        var a :| 0 <= a < |init| && ScalarChild(rules, init[a], f);
        assert ScalarChild(rules, cs[a], f);
      }
    }
  }

  /** One child of an entry changes only the field it is stored under or
      appends to; appending finds the field absent or a list. */
  lemma {:induction false} PivotStepField(obj: Fields, c: Elem, rules: PivotRules, f: string)
    requires PivotStep(obj, c, rules).Ok?
    ensures ListChild(rules, c, f) ==> Lookup(obj, f).None? || Lookup(obj, f).value.Arr?
    ensures Lookup(PivotStep(obj, c, rules).value, f) ==
      if ScalarChild(rules, c, f) then Some(Str(TextOr(c.text)))
      else if ListChild(rules, c, f) then
        Some(Arr((if Lookup(obj, f).Some? then Lookup(obj, f).value.items else []) + [TextItem(c.text)]))
      else Lookup(obj, f)
  {
    var v := TextItem(c.text);
    var field := ListFieldFor(rules.lists, c.tag);
    if field.Some? {
      var g := field.value;
      var current := Lookup(obj, g);
      var items := if current.Some? then current.value.items + [v] else [v];
      assert current.Some? ==> current.value.Arr?;
      assert PivotStep(obj, c, rules).value == Assign(obj, g, Arr(items));
      if g != f {
        AssignOther(obj, g, Arr(items), f);
      } else if current.None? {
        assert [] + [v] == [v];
      }
    } else if c.tag != f {
      AssignOther(obj, c.tag, Str(TextOr(c.text)), f);
    }
  }

  /** The text (or "") of the last child of `cs` stored as a str under `f`. */
  function LastScalarText(cs: seq<Elem>, rules: PivotRules, f: string): string
    requires HasScalar(cs, rules, f)
    decreases |cs|
  {
    var last := cs[|cs| - 1];
    if ScalarChild(rules, last, f) then TextOr(last.text) else LastScalarText(cs[..|cs| - 1], rules, f)
  }

  /** `LastScalarText` is the text of a scalar child that no later scalar
      child overwrites. */
  lemma {:induction false} LastScalarTextIsLast(cs: seq<Elem>, rules: PivotRules, f: string)
    requires HasScalar(cs, rules, f)
    ensures exists a :: 0 <= a < |cs| && ScalarChild(rules, cs[a], f) && LastScalarText(cs, rules, f) == TextOr(cs[a].text) &&
                        (forall b :: a < b < |cs| ==> !ScalarChild(rules, cs[b], f))
    decreases |cs|
  {
    var init := cs[..|cs| - 1];
    if !ScalarChild(rules, cs[|cs| - 1], f) {
      LastScalarTextIsLast(init, rules, f);
      var a :| 0 <= a < |init| && ScalarChild(rules, init[a], f) && LastScalarText(init, rules, f) == TextOr(init[a].text) &&
               (forall b :: a < b < |init| ==> !ScalarChild(rules, init[b], f));
      assert init[a] == cs[a];
      forall b | a < b < |cs| ensures !ScalarChild(rules, cs[b], f) {
        if b < |init| { assert init[b] == cs[b]; }
      }
    }
  }

  /** What field `f` holds after the children `cs` of an entry: once a child
      was stored under its name, the text of the last such child (the last
      one wins); otherwise the texts of the list children that append to it,
      in document order (absent if none). */
  predicate FieldState(obj: Fields, cs: seq<Elem>, rules: PivotRules, f: string) {
    if HasScalar(cs, rules, f)
    then Lookup(obj, f) == Some(Str(LastScalarText(cs, rules, f)))
    else Lookup(obj, f) == (if ListTexts(cs, rules, f) == [] then None else Some(Arr(ListTexts(cs, rules, f))))
  }

  lemma {:induction false} PivotStepKeepsFieldState(obj: Fields, cs: seq<Elem>, c: Elem, rules: PivotRules, f: string)
    requires FieldState(obj, cs, rules, f) && PivotStep(obj, c, rules).Ok?
    ensures FieldState(PivotStep(obj, c, rules).value, cs + [c], rules, f)
  {
    var cs' := cs + [c];
    assert cs'[..|cs'| - 1] == cs && cs'[|cs'| - 1] == c;
    PivotStepField(obj, c, rules, f);
    var texts := ListTexts(cs, rules, f);
    assert ListTexts(cs', rules, f) == texts + if ListChild(rules, c, f) then [TextItem(c.text)] else [];
    assert HasScalar(cs', rules, f) == (HasScalar(cs, rules, f) || ScalarChild(rules, c, f));
    if !HasScalar(cs', rules, f) {
      if !ListChild(rules, c, f) {
        assert texts + [] == texts;
      } else if texts == [] {
        assert texts + [TextItem(c.text)] == [TextItem(c.text)];
      } else {
        assert Lookup(obj, f) == Some(Arr(texts));
      }
    }
  }

  /** Every field of a pivoted entry is in the state `FieldState` describes. */
  lemma {:induction false} PivotEntryFields(p: Elem, rules: PivotRules, i: nat, f: string)
    requires i <= |p.children| && PivotEntryUpTo(p, rules, i).Ok?
    ensures FieldState(PivotEntryUpTo(p, rules, i).value, p.children[..i], rules, f)
    decreases i
  {
    if i > 0 {
      assert p.children[..i] == p.children[..i - 1] + [p.children[i - 1]];
      PivotEntryFields(p, rules, i - 1, f);
      PivotStepKeepsFieldState(PivotEntryUpTo(p, rules, i - 1).value, p.children[..i - 1], p.children[i - 1], rules, f);
    }
  }

  /** The field child `c` of an entry writes: its list field, or its own tag. */
  function FieldOf(c: Elem, rules: PivotRules): string {
    match ListFieldFor(rules.lists, c.tag)
    case Some(f) => f
    case None => c.tag
  }

  /** The fields the children `cs` write, in document order. */
  function WrittenFields(cs: seq<Elem>, rules: PivotRules): seq<string> {
    seq(|cs|, j requires 0 <= j < |cs| => FieldOf(cs[j], rules))
  }

  /** `ks` without repeats, each key where it first occurs. */
  function FirstSeen(ks: seq<string>): seq<string> {
    if ks == [] then []
    else
      var seen := FirstSeen(ks[..|ks| - 1]);
      if ks[|ks| - 1] in seen then seen else seen + [ks[|ks| - 1]]
  }

  /** One child adds its field at the end when it is new and otherwise
      leaves the keys where they are. */
  lemma PivotStepKeys(obj: Fields, c: Elem, rules: PivotRules)
    requires PivotStep(obj, c, rules).Ok?
    ensures Keys(PivotStep(obj, c, rules).value) ==
      if FieldOf(c, rules) in Keys(obj) then Keys(obj) else Keys(obj) + [FieldOf(c, rules)]
  {
    var g := FieldOf(c, rules);
    if ListFieldFor(rules.lists, c.tag).Some? {
      var current := Lookup(obj, g);
      var items := if current.Some? then current.value.items + [TextItem(c.text)] else [TextItem(c.text)];
      assert current.Some? ==> current.value.Arr?;
      assert PivotStep(obj, c, rules).value == Assign(obj, g, Arr(items));
      AssignKeys(obj, g, Arr(items));
    } else {
      AssignKeys(obj, g, Str(TextOr(c.text)));
    }
  }

  /** The keys of a pivoted entry are the fields its children write, each at
      the position of the first child that wrote it. */
  lemma {:induction false} PivotEntryKeys(p: Elem, rules: PivotRules, i: nat)
    requires i <= |p.children| && PivotEntryUpTo(p, rules, i).Ok?
    ensures Keys(PivotEntryUpTo(p, rules, i).value) == FirstSeen(WrittenFields(p.children[..i], rules))
    decreases i
  {
    if i > 0 {
      PivotEntryKeys(p, rules, i - 1);
      PivotStepKeys(PivotEntryUpTo(p, rules, i - 1).value, p.children[i - 1], rules);
      var written := WrittenFields(p.children[..i], rules);
      assert written[..|written| - 1] == WrittenFields(p.children[..i - 1], rules);
    }
  }

  /** Pivoting an entry fails exactly when a list child appends to a field
      that an earlier child stored as a str (say `<backends>` before
      `<backend>`). */
  lemma PivotEntryFails(p: Elem, rules: PivotRules, i: nat)
    requires i <= |p.children|
    ensures PivotEntryUpTo(p, rules, i).Err? <==>
      exists a, b :: 0 <= a < b < i && Clash(rules, p.children[a], p.children[b])
    decreases i
  {
    if i > 0 {
      PivotEntryFails(p, rules, i - 1);
      if PivotEntryUpTo(p, rules, i - 1).Err? {
        var a, b :| 0 <= a < b < i - 1 && Clash(rules, p.children[a], p.children[b]);
        assert 0 <= a < b < i;
      } else {
        LastClashes(p, rules, i);
      }
    }
  }

  /** After a prefix that pivots, the next child fails exactly when it
      clashes with a child of the prefix. */
  lemma LastClashes(p: Elem, rules: PivotRules, i: nat)
    requires 0 < i <= |p.children| && PivotEntryUpTo(p, rules, i - 1).Ok?
    requires !exists a, b :: 0 <= a < b < i - 1 && Clash(rules, p.children[a], p.children[b])
    ensures PivotEntryUpTo(p, rules, i).Err? <==>
      exists a, b :: 0 <= a < b < i && Clash(rules, p.children[a], p.children[b])
  {
    var c := p.children[i - 1];
    var field := ListFieldFor(rules.lists, c.tag);
    if field.Some? {
      var f := field.value;
      StepFailsIffScalar(p, rules, i, PivotEntryUpTo(p, rules, i - 1).value, f);
      ClashIffScalar(p, rules, i, f);
      if HasScalar(p.children[..i - 1], rules, f) {
        var a :| 0 <= a < i - 1 && Clash(rules, p.children[a], p.children[i - 1]);
        assert 0 <= a < i - 1 < i;
      } else {
        forall a, b | 0 <= a < b < i
          ensures !Clash(rules, p.children[a], p.children[b])
        {
        }
      }
    } else {
      forall a, b | 0 <= a < b < i
        ensures !Clash(rules, p.children[a], p.children[b])
      {
      }
    }
  }

  /** A list child fails to append exactly when an earlier child stored a
      str under its field. */
  lemma StepFailsIffScalar(p: Elem, rules: PivotRules, i: nat, obj: Fields, f: string)
    requires 0 < i <= |p.children| && PivotEntryUpTo(p, rules, i - 1) == Ok(obj)
    requires ListFieldFor(rules.lists, p.children[i - 1].tag) == Some(f)
    ensures PivotEntryUpTo(p, rules, i).Err? <==> HasScalar(p.children[..i - 1], rules, f)
  {
    PivotEntryFields(p, rules, i - 1, f);
    StepIffState(obj, p.children[..i - 1], p.children[i - 1], rules, f, PivotEntryUpTo(p, rules, i));
  }

  /** The step of a list child `c`, after the children `cs` built `obj`,
      fails exactly when one of `cs` stored a str under its field. */
  lemma StepIffState(obj: Fields, cs: seq<Elem>, c: Elem, rules: PivotRules, f: string, next: Result<Fields, ConvError>)
    requires ListFieldFor(rules.lists, c.tag) == Some(f) && FieldState(obj, cs, rules, f)
    requires next == PivotStep(obj, c, rules)
    ensures next.Err? <==> HasScalar(cs, rules, f)
  {
    AppendIffScalar(obj, cs, rules, f, TextItem(c.text));
  }

  /** Appending to a field fails exactly when a child stored a str there. */
  lemma AppendIffScalar(obj: Fields, cs: seq<Elem>, rules: PivotRules, f: string, v: Json)
    requires FieldState(obj, cs, rules, f)
    ensures Append(obj, f, v).Err? <==> HasScalar(cs, rules, f)
  {
  }

  /** The child before position `i - 1` that clashes with it is one stored as
      a str under the field it appends to. */
  lemma ClashIffScalar(p: Elem, rules: PivotRules, i: nat, f: string)
    requires 0 < i <= |p.children| && ListFieldFor(rules.lists, p.children[i - 1].tag) == Some(f)
    ensures HasScalar(p.children[..i - 1], rules, f) <==>
      exists a :: 0 <= a < i - 1 && Clash(rules, p.children[a], p.children[i - 1])
  {
    var prefix := p.children[..i - 1];
    HasScalarExists(prefix, rules, f);
    forall a | 0 <= a < i - 1
      ensures ScalarChild(rules, prefix[a], f) <==> Clash(rules, p.children[a], p.children[i - 1])
    {
      assert prefix[a] == p.children[a];
    }
  }

  /** A pivot container decodes to one object per entry child, in document
      order, and fails exactly when one of its entries fails. */
  lemma {:induction false} PivotEntriesItems(ps: seq<Elem>, rules: PivotRules)
    ensures PivotEntries(ps, rules).Ok? <==> forall n :: 0 <= n < |ps| ==> PivotEntry(ps[n], rules).Ok?
    ensures PivotEntries(ps, rules).Ok? ==>
      var xs := PivotEntries(ps, rules).value;
      |xs| == |ps| && forall n :: 0 <= n < |ps| ==> xs[n] == Obj(PivotEntry(ps[n], rules).value)
    decreases |ps|
  {
    if ps != [] {
      var init := ps[..|ps| - 1];
      PivotEntriesItems(init, rules);
      assert forall n :: 0 <= n < |init| ==> init[n] == ps[n];
    }
  }

  // ---------------------------------------------------------------------------
  // The object `xml_to_json` builds

  /** The keys the child `c` gives its parent's object. */
  function EntryKeys(c: Elem): set<string> {
    if c.tag == "Hosts" && |c.children| > 0 then {"Hosts", "DstHosts"} else {c.tag}
  }

  lemma {:induction false} ChildEntriesKeys(tags: string -> Option<string>, c: Elem)
    requires ChildEntries(tags, c).Ok?
    ensures forall k :: k in Keys(ChildEntries(tags, c).value) <==> k in EntryKeys(c)
  {
  }

  /** The decoded object has no duplicate key, and its keys are exactly the
      tags of the children (plus "DstHosts" when a `Hosts` child has children). */
  lemma {:induction false} DecodeFieldsKeys(tags: string -> Option<string>, e: Elem, i: nat)
    requires i <= |e.children| && DecodeFields(tags, e, i).Ok?
    ensures UniqueKeys(DecodeFields(tags, e, i).value)
    ensures forall k :: k in Keys(DecodeFields(tags, e, i).value) <==>
      exists j :: 0 <= j < i && k in EntryKeys(e.children[j])
    decreases i
  {
    if i > 0 {
      DecodeFieldsKeys(tags, e, i - 1);
      var acc := DecodeFields(tags, e, i - 1).value;
      var es := ChildEntries(tags, e.children[i - 1]).value;
      AssignAllUnique(acc, es);
      ChildEntriesKeys(tags, e.children[i - 1]);
      forall k
        ensures k in Keys(AssignAll(acc, es)) <==> exists j :: 0 <= j < i && k in EntryKeys(e.children[j])
      {
        KeySetStep(acc, es, k, e, i);
      }
    }
  }

  /** One more child: a key is set by the first `i` children exactly when
      the first `i - 1` set it or child `i - 1` does. */
  lemma KeySetStep(acc: Fields, es: Fields, k: string, e: Elem, i: nat)
    requires 0 < i <= |e.children|
    requires k in Keys(acc) <==> exists j :: 0 <= j < i - 1 && k in EntryKeys(e.children[j])
    requires k in Keys(es) <==> k in EntryKeys(e.children[i - 1])
    ensures k in Keys(AssignAll(acc, es)) <==> exists j :: 0 <= j < i && k in EntryKeys(e.children[j])
  {
    AssignAllKeySet(acc, es, k);
    if exists j :: 0 <= j < i && k in EntryKeys(e.children[j]) {
      var j :| 0 <= j < i && k in EntryKeys(e.children[j]);
      if j < i - 1 {
        assert k in Keys(acc);
      }
    }
  }

  /** A field keeps the position of the first child that set it: each later
      child only overwrites in place or appends. */
  lemma {:induction false} DecodeFieldsKeepOrder(tags: string -> Option<string>, e: Elem, i: nat, j: nat)
    requires i <= j <= |e.children| && DecodeFields(tags, e, j).Ok?
    ensures DecodeFields(tags, e, i).Ok?
    ensures var before, after := Keys(DecodeFields(tags, e, i).value), Keys(DecodeFields(tags, e, j).value);
      |before| <= |after| && after[..|before|] == before
    decreases j
  {
    if i < j {
      DecodeFieldsKeepOrder(tags, e, i, j - 1);
      var acc := DecodeFields(tags, e, j - 1).value;
      AssignAllKeepsOrder(acc, ChildEntries(tags, e.children[j - 1]).value);
    }
  }

  /** The last child that sets a field decides its value. */
  lemma {:induction false} DecodeFieldsLastWins(tags: string -> Option<string>, e: Elem, i: nat, j: nat, k: string)
    requires j < i <= |e.children| && DecodeFields(tags, e, i).Ok?
    requires k in EntryKeys(e.children[j])
    requires forall j' :: j < j' < i ==> k !in EntryKeys(e.children[j'])
    ensures ChildEntries(tags, e.children[j]).Ok?
    ensures Lookup(DecodeFields(tags, e, i).value, k) == LastValue(ChildEntries(tags, e.children[j]).value, k)
    decreases i
  {
    var acc := DecodeFields(tags, e, i - 1).value;
    var es := ChildEntries(tags, e.children[i - 1]).value;
    AssignAllLookup(acc, es, k);
    ChildEntriesKeys(tags, e.children[i - 1]);
    if j < i - 1 {
      DecodeFieldsLastWins(tags, e, i - 1, j, k);
    }
  }

  /** The value the field of child `j` ends with, when no later child sets
      the same key: a childless child gives its text or ""; a pivot
      container its handler's list; a list container one item per child,
      each decoded on its own whatever its tag; any other child the object
      decoded from it. */
  lemma DecodedField(tags: string -> Option<string>, e: Elem, j: nat)
    requires j < |e.children| && Decode(tags, e).Ok?
    requires e.children[j].tag != "Hosts" || |e.children[j].children| == 0
    requires forall j' :: j < j' < |e.children| ==> e.children[j].tag !in EntryKeys(e.children[j'])
    ensures var c := e.children[j];
      var r := Lookup(Decode(tags, e).value.fields, c.tag);
      r.Some? &&
      (|c.children| == 0 ==> r.value == Str(TextOr(c.text))) &&
      (|c.children| > 0 && c.tag == "AccessPaths" ==> r.value.Arr? && PivotList(c, AccessPathRules) == Ok(r.value.items)) &&
      (|c.children| > 0 && c.tag == "Exceptions" ==> r.value.Arr? && PivotList(c, ExceptionRules) == Ok(r.value.items)) &&
      (|c.children| > 0 && c.tag != "AccessPaths" && c.tag != "Exceptions" && tags(c.tag).Some? ==>
         r.value.Arr? && |r.value.items| == |c.children| &&
         forall i :: 0 <= i < |c.children| ==> Decode(tags, c.children[i]) == Ok(r.value.items[i])) &&
      (|c.children| > 0 && c.tag != "AccessPaths" && c.tag != "Exceptions" && tags(c.tag).None? ==>
         Decode(tags, c) == Ok(r.value))
  {
    var c := e.children[j];
    DecodeFieldsLastWins(tags, e, |e.children|, j, c.tag);
    var es := ChildEntries(tags, c).value;
    assert |es| == 1 && es[0].0 == c.tag;
    assert LastValue(es, c.tag) == Some(es[0].1);
    if |c.children| > 0 && c.tag != "AccessPaths" && c.tag != "Exceptions" && tags(c.tag).Some? {
      DecodeItemsPointwise(tags, c, |c.children|);
    }
  }

  /** A `Hosts` child with children, when no later child sets `Hosts` or
      `DstHosts`, leaves two lists: the texts of its `Host` children and
      those of its `DstHost` children, each in document order. */
  lemma DecodedHosts(tags: string -> Option<string>, e: Elem, j: nat)
    requires j < |e.children| && Decode(tags, e).Ok?
    requires e.children[j].tag == "Hosts" && |e.children[j].children| > 0
    requires forall j' :: j < j' < |e.children| ==>
               "Hosts" !in EntryKeys(e.children[j']) && "DstHosts" !in EntryKeys(e.children[j'])
    ensures var c := e.children[j];
      var fs := Decode(tags, e).value.fields;
      Lookup(fs, "Hosts") == Some(Arr(TextsOf(c.children, "Host"))) &&
      Lookup(fs, "DstHosts") == Some(Arr(TextsOf(c.children, "DstHost")))
  {
    var c := e.children[j];
    DecodeFieldsLastWins(tags, e, |e.children|, j, "Hosts");
    DecodeFieldsLastWins(tags, e, |e.children|, j, "DstHosts");
    var es := ChildEntries(tags, c).value;
    assert es == [("Hosts", Arr(TextsOf(c.children, "Host"))), ("DstHosts", Arr(TextsOf(c.children, "DstHost")))];
    assert LastValue(es[1..], "Hosts") == None;
  }

  /** An element with children decodes to an object without duplicate keys
      whose keys are the tags of its children (plus "DstHosts" beside a
      `Hosts` child with children); a childless one to its text. */
  lemma {:induction false} DecodeShape(tags: string -> Option<string>, e: Elem)
    requires Decode(tags, e).Ok?
    ensures |e.children| == 0 ==> Decode(tags, e).value == Str(TextOr(e.text))
    ensures |e.children| > 0 ==> Decode(tags, e).value.Obj?
    ensures |e.children| > 0 ==>
      var fs := Decode(tags, e).value.fields;
      UniqueKeys(fs) &&
      forall k :: k in Keys(fs) <==> exists j :: 0 <= j < |e.children| && k in EntryKeys(e.children[j])
  {
    if |e.children| > 0 {
      DecodeFieldsKeys(tags, e, |e.children|);
    }
  }

  /** A list container decodes to one item per child, whatever the child's
      tag, and fails when one of them fails. */
  lemma {:induction false} DecodeItemsPointwise(tags: string -> Option<string>, c: Elem, i: nat)
    requires i <= |c.children|
    ensures DecodeItems(tags, c, i).Ok? <==> forall j :: 0 <= j < i ==> Decode(tags, c.children[j]).Ok?
    ensures DecodeItems(tags, c, i).Ok? ==>
      var xs := DecodeItems(tags, c, i).value;
      |xs| == i && forall j :: 0 <= j < i ==> xs[j] == Decode(tags, c.children[j]).value
    decreases i
  {
    if i > 0 {
      DecodeItemsPointwise(tags, c, i - 1);
    }
  }

  /** Only the children of an element with children matter: its own tag,
      text and attributes (a `transactionid`, say) are dropped. */
  lemma {:induction false} DecodeIgnoresRoot(tags: string -> Option<string>, e: Elem, e': Elem)
    requires e.children == e'.children && |e.children| > 0
    ensures Decode(tags, e) == Decode(tags, e')
  {
    DecodeFieldsSameChildren(tags, e, e', |e.children|);
  }

  lemma {:induction false} DecodeFieldsSameChildren(tags: string -> Option<string>, e: Elem, e': Elem, i: nat)
    requires e.children == e'.children && i <= |e.children|
    ensures DecodeFields(tags, e, i) == DecodeFields(tags, e', i)
    decreases i
  {
    if i > 0 {
      DecodeFieldsSameChildren(tags, e, e', i - 1);
      var c := e.children[i - 1];
      assert e'.children[i - 1] == c;
      DecodeFieldsUnfold(tags, e, i, c);
      DecodeFieldsUnfold(tags, e', i, c);
    }
  }

  /** One more child: the object so far, then that child's assignments. */
  lemma DecodeFieldsUnfold(tags: string -> Option<string>, e: Elem, i: nat, c: Elem)
    requires 0 < i <= |e.children| && e.children[i - 1] == c
    ensures DecodeFields(tags, e, i) ==
      if DecodeFields(tags, e, i - 1).Err? then DecodeFields(tags, e, i - 1)
      else if ChildEntries(tags, c).Err? then Err(ChildEntries(tags, c).error)
      else Ok(AssignAll(DecodeFields(tags, e, i - 1).value, ChildEntries(tags, c).value))
  {
  }

  // ---------------------------------------------------------------------------
  // The only exception `xml_to_json` raises is the AttributeError of a
  // pivot entry.

  lemma {:induction false} PivotEntryErrorKind(p: Elem, rules: PivotRules, i: nat)
    requires i <= |p.children| && PivotEntryUpTo(p, rules, i).Err?
    ensures PivotEntryUpTo(p, rules, i).error.AppendToText?
    decreases i
  {
    if PivotEntryUpTo(p, rules, i - 1).Err? {
      PivotEntryErrorKind(p, rules, i - 1);
    }
  }

  lemma {:induction false} PivotEntriesErrorKind(ps: seq<Elem>, rules: PivotRules)
    requires PivotEntries(ps, rules).Err?
    ensures PivotEntries(ps, rules).error.AppendToText?
    decreases |ps|
  {
    if PivotEntries(ps[..|ps| - 1], rules).Err? {
      PivotEntriesErrorKind(ps[..|ps| - 1], rules);
    } else {
      PivotEntryErrorKind(ps[|ps| - 1], rules, |ps[|ps| - 1].children|);
    }
  }

  lemma {:induction false} DecodeErrorKind(tags: string -> Option<string>, e: Elem)
    requires Decode(tags, e).Err?
    ensures Decode(tags, e).error.AppendToText?
    decreases e, 3
  {
    DecodeFieldsErrorKind(tags, e, |e.children|);
  }

  lemma {:induction false} DecodeFieldsErrorKind(tags: string -> Option<string>, e: Elem, i: nat)
    requires i <= |e.children| && DecodeFields(tags, e, i).Err?
    ensures DecodeFields(tags, e, i).error.AppendToText?
    decreases e, 2, i
  {
    if DecodeFields(tags, e, i - 1).Err? {
      DecodeFieldsErrorKind(tags, e, i - 1);
    } else {
      ChildEntriesErrorKind(tags, e.children[i - 1]);
    }
  }

  lemma {:induction false} ChildEntriesErrorKind(tags: string -> Option<string>, c: Elem)
    requires ChildEntries(tags, c).Err?
    ensures ChildEntries(tags, c).error.AppendToText?
    decreases c, 4
  {
    if c.tag == "AccessPaths" {
      PivotEntriesErrorKind(ChildrenTagged(c.children, AccessPathRules.entry), AccessPathRules);
    } else if c.tag == "Exceptions" {
      PivotEntriesErrorKind(ChildrenTagged(c.children, ExceptionRules.entry), ExceptionRules);
    } else if tags(c.tag).Some? {
      DecodeItemsErrorKind(tags, c, |c.children|);
    } else {
      DecodeErrorKind(tags, c);
    }
  }

  lemma {:induction false} DecodeItemsErrorKind(tags: string -> Option<string>, c: Elem, i: nat)
    requires i <= |c.children| && DecodeItems(tags, c, i).Err?
    ensures DecodeItems(tags, c, i).error.AppendToText?
    decreases c, 2, i
  {
    if DecodeItems(tags, c, i - 1).Err? {
      DecodeItemsErrorKind(tags, c, i - 1);
    } else {
      DecodeErrorKind(tags, c.children[i - 1]);
    }
  }
}
