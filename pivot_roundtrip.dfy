/** The `FirewallRule` pass and the pivot handlers undo each other: an
    `AccessPath` or `Exception` entry whose list fields were lifted out of
    their containers decodes to the entry's fields, the lifted lists last. */
module PivotLift {
  import opened Wrappers
  import opened Xml
  import opened Encoding

  // ---------------------------------------------------------------------------
  // What the lift leaves in an entry.

  /** The children whose tags are not lifted, in order. */
  function Kept(cs: seq<Elem>, names: seq<string>): seq<Elem> {
    if cs == [] then []
    else Kept(cs[..|cs| - 1], names) + (if cs[|cs| - 1].tag in names then [] else [cs[|cs| - 1]])
  }

  /** The children of the first child tagged `n`, or none. */
  function ItemsOf(cs: seq<Elem>, n: string): seq<Elem> {
    match FindChild(cs, n)
    case None => []
    case Some(k) => cs[k].children
  }

  /** The lifted children, container by container in the order of `names`. */
  function LiftedItems(cs: seq<Elem>, names: seq<string>): seq<Elem>
    decreases |names|
  {
    if names == [] then [] else ItemsOf(cs, names[0]) + LiftedItems(cs, names[1..])
  }

  predicate DistinctTags(cs: seq<Elem>) {
    forall i, j :: 0 <= i < j < |cs| ==> cs[i].tag != cs[j].tag
  }

  predicate Distinct(names: seq<string>) {
    forall i, j :: 0 <= i < j < |names| ==> names[i] != names[j]
  }

  /** No container lifts an item carrying a tag that is lifted later. */
  predicate ItemsClear(cs: seq<Elem>, names: seq<string>)
    decreases |names|
  {
    names == [] || ((forall c :: c in ItemsOf(cs, names[0]) ==> c.tag !in names[1..]) && ItemsClear(cs, names[1..]))
  }

  /** After the lift of `names`, an entry holds its other children in their
      order, then the items of each container in the order of `names`. The
      children `t` already moved to the end stay between the two. */
  lemma {:induction false} LiftAllShape(e: Elem, a: seq<Elem>, t: seq<Elem>, names: seq<string>)
    requires e.children == a + t && DistinctTags(a) && Distinct(names) && ItemsClear(a, names)
    requires forall c :: c in t ==> c.tag !in names
    ensures LiftAll(e, names) == e.(children := Kept(a, names) + t + LiftedItems(a, names))
    decreases |names|, 1
  {
    if names == [] {
      KeptNothing(a, names);
      assert t + [] == t;
    } else {
      DistinctRest(names);
      match FindChild(a, names[0])
      case None => LiftMissing(e, a, t, names);
      case Some(k) => LiftFound(e, a, t, names, k);
    }
  }

  lemma {:induction false} DistinctRest(names: seq<string>)
    requires names != [] && Distinct(names)
    ensures names[0] !in names[1..] && Distinct(names[1..])
  {
    var rest := names[1..];
    forall i, j | 0 <= i < j < |rest|
      ensures rest[i] != rest[j]
    {
      assert rest[i] == names[i + 1] && rest[j] == names[j + 1];
    }
  }

  lemma LiftMissing(e: Elem, a: seq<Elem>, t: seq<Elem>, names: seq<string>)
    requires e.children == a + t && DistinctTags(a) && Distinct(names) && ItemsClear(a, names)
    requires forall c :: c in t ==> c.tag !in names
    requires names != [] && FindChild(a, names[0]).None? && Distinct(names[1..])
    ensures LiftAll(e, names) == e.(children := Kept(a, names) + t + LiftedItems(a, names))
    decreases |names|, 0
  {
    FindChildAfter(a, t, names[0]);
    LiftAllShape(e, a, t, names[1..]);
    KeptSkip(a, names);
  }

  lemma {:induction false} LiftFound(e: Elem, a: seq<Elem>, t: seq<Elem>, names: seq<string>, k: nat)
    requires e.children == a + t && DistinctTags(a) && Distinct(names) && ItemsClear(a, names)
    requires forall c :: c in t ==> c.tag !in names
    requires names != [] && FindChild(a, names[0]) == Some(k)
    requires names[0] !in names[1..] && Distinct(names[1..])
    ensures LiftAll(e, names) == e.(children := Kept(a, names) + t + LiftedItems(a, names))
    decreases |names|, 0
  {
    var rest := names[1..];
    var a' := a[..k] + a[k + 1..];
    var t' := t + a[k].children;
    var e' := e.(children := a' + t');
    LiftStep(e, a, t, names[0], k);
    assert a' + t + a[k].children == a' + t';
    assert Lift(e, names[0]) == e';
    LiftFoundRest(a, t, names, k);
    LiftAllShape(e', a', t', rest);
    KeptRemove(a, k, names);
    LiftedItemsRemove(a, k, rest);
    assert LiftedItems(a, names) == a[k].children + LiftedItems(a', rest);
    AppendAssoc(Kept(a, names), t, a[k].children, LiftedItems(a', rest));
  }

  /** Regrouping a concatenation; a separate lemma keeps its callers' proofs
      small. */
  lemma {:induction false} AppendAssoc(p: seq<Elem>, q: seq<Elem>, r: seq<Elem>, s: seq<Elem>)
    ensures p + (q + r) + s == p + q + (r + s)
  {
  }

  /** The preconditions of the lift of the remaining names. */
  lemma {:induction false} LiftFoundRest(a: seq<Elem>, t: seq<Elem>, names: seq<string>, k: nat)
    requires DistinctTags(a) && ItemsClear(a, names)
    requires forall c :: c in t ==> c.tag !in names
    requires names != [] && FindChild(a, names[0]) == Some(k) && names[0] !in names[1..]
    ensures DistinctTags(a[..k] + a[k + 1..]) && ItemsClear(a[..k] + a[k + 1..], names[1..])
    ensures forall c :: c in t + a[k].children ==> c.tag !in names[1..]
  {
    RemoveKeepsDistinct(a, k);
    ItemsClearRemove(a, k, names[1..]);
    forall c | c in t + a[k].children
      ensures c.tag !in names[1..]
    {
      if c in t {
        assert c.tag !in names;
        assert names == [names[0]] + names[1..];
      } else {
        assert c in ItemsOf(a, names[0]);
      }
    }
  }

  /** One `Lift`: the found container is removed and its items appended. */
  lemma {:induction false} LiftStep(e: Elem, a: seq<Elem>, t: seq<Elem>, n: string, k: nat)
    requires e.children == a + t && FindChild(a, n) == Some(k)
    ensures Lift(e, n) == e.(children := a[..k] + a[k + 1..] + t + a[k].children)
  {
    FindChildBefore(a, t, n, k);
    assert (a + t)[..k] + (a + t)[k + 1..] == a[..k] + a[k + 1..] + t;
  }

  lemma {:induction false} KeptNothing(cs: seq<Elem>, names: seq<string>)
    requires names == []
    ensures Kept(cs, names) == cs
    decreases |cs|
  {
    if cs != [] {
      KeptNothing(cs[..|cs| - 1], names);
    }
  }

  lemma {:induction false} KeptConcat(a: seq<Elem>, b: seq<Elem>, names: seq<string>)
    ensures Kept(a + b, names) == Kept(a, names) + Kept(b, names)
    decreases |b|
  {
    if b == [] {
      assert a + b == a;
    } else {
      var b' := b[..|b| - 1];
      assert (a + b)[..|a + b| - 1] == a + b';
      KeptConcat(a, b', names);
    }
  }

  /** A name no child carries filters nothing. */
  lemma {:induction false} KeptSkip(cs: seq<Elem>, names: seq<string>)
    requires names != [] && forall j :: 0 <= j < |cs| ==> cs[j].tag != names[0]
    ensures Kept(cs, names) == Kept(cs, names[1..])
    decreases |cs|
  {
    if cs != [] {
      var last := cs[|cs| - 1];
      assert last.tag in names <==> last.tag in names[1..] by {
        assert names == [names[0]] + names[1..];
      }
      KeptSkip(cs[..|cs| - 1], names);
    }
  }

  lemma {:induction false} KeptAround(before: seq<Elem>, c: Elem, after: seq<Elem>, names: seq<string>)
    ensures Kept(before + [c] + after, names) == Kept(before, names) + Kept([c], names) + Kept(after, names)
  {
    KeptConcat(before + [c], after, names);
    KeptConcat(before, [c], names);
  }

  lemma {:induction false} KeptDrop(c: Elem, names: seq<string>)
    requires c.tag in names
    ensures Kept([c], names) == []
  {
    assert [c][..0] == [];
  }

  /** Removing the one child tagged `names[0]` is filtering it out. */
  lemma {:induction false} KeptRemove(a: seq<Elem>, k: nat, names: seq<string>)
    requires names != [] && k < |a| && a[k].tag == names[0] && DistinctTags(a)
    ensures Kept(a[..k] + a[k + 1..], names[1..]) == Kept(a, names)
  {
    KeptSplit(a, k, names);
    KeptDrop(a[k], names);
    KeptSkipBefore(a, k, names);
    KeptSkipAfter(a, k, names);
    KeptConcat(a[..k], a[k + 1..], names[1..]);
  }

  lemma {:induction false} KeptSplit(a: seq<Elem>, k: nat, names: seq<string>)
    requires k < |a|
    ensures Kept(a, names) == Kept(a[..k], names) + Kept([a[k]], names) + Kept(a[k + 1..], names)
  {
    assert a == a[..k] + [a[k]] + a[k + 1..];
    KeptAround(a[..k], a[k], a[k + 1..], names);
  }

  lemma {:induction false} KeptSkipBefore(a: seq<Elem>, k: nat, names: seq<string>)
    requires names != [] && k < |a| && a[k].tag == names[0] && DistinctTags(a)
    ensures Kept(a[..k], names) == Kept(a[..k], names[1..])
  {
    var before := a[..k];
    forall j | 0 <= j < |before|
      ensures before[j].tag != names[0]
    {
      assert before[j] == a[j];
    }
    KeptSkip(before, names);
  }

  lemma {:induction false} KeptSkipAfter(a: seq<Elem>, k: nat, names: seq<string>)
    requires names != [] && k < |a| && a[k].tag == names[0] && DistinctTags(a)
    ensures Kept(a[k + 1..], names) == Kept(a[k + 1..], names[1..])
  {
    var after := a[k + 1..];
    forall j | 0 <= j < |after|
      ensures after[j].tag != names[0]
    {
      assert after[j] == a[k + 1 + j];
    }
    KeptSkip(after, names);
  }

  lemma {:induction false} RemoveKeepsDistinct(a: seq<Elem>, k: nat)
    requires k < |a| && DistinctTags(a)
    ensures DistinctTags(a[..k] + a[k + 1..])
  {
    var a' := a[..k] + a[k + 1..];
    forall i, j | 0 <= i < j < |a'|
      ensures a'[i].tag != a'[j].tag
    {
      var i' := if i < k then i else i + 1;
      var j' := if j < k then j else j + 1;
      assert a'[i] == a[i'] && a'[j] == a[j'];
    }
  }

  /** `FindChild` names the first index with the tag. */
  lemma {:induction false} FindChildIs(cs: seq<Elem>, n: string, k: nat)
    requires k < |cs| && cs[k].tag == n && forall j :: 0 <= j < k ==> cs[j].tag != n
    ensures FindChild(cs, n) == Some(k)
  {
    var r := FindChild(cs, n);
    assert r.Some?;
    assert !(r.value < k);
    assert !(k < r.value);
  }

  lemma {:induction false} FindChildBefore(a: seq<Elem>, t: seq<Elem>, n: string, k: nat)
    requires FindChild(a, n) == Some(k)
    ensures FindChild(a + t, n) == Some(k)
  {
    forall j | 0 <= j < k
      ensures (a + t)[j].tag != n
    {
      assert (a + t)[j] == a[j];
    }
    FindChildIs(a + t, n, k);
  }

  lemma {:induction false} FindChildAfter(a: seq<Elem>, t: seq<Elem>, n: string)
    requires FindChild(a, n).None? && forall c :: c in t ==> c.tag != n
    ensures FindChild(a + t, n).None?
  {
    forall j | 0 <= j < |a + t|
      ensures (a + t)[j].tag != n
    {
      if j < |a| {
        assert (a + t)[j] == a[j];
      } else {
        assert (a + t)[j] == t[j - |a|];
      }
    }
  }

  /** Removing a child tagged otherwise leaves the container found for `m`. */
  lemma {:induction false} ItemsOfRemove(a: seq<Elem>, k: nat, m: string)
    requires k < |a| && a[k].tag != m
    ensures ItemsOf(a[..k] + a[k + 1..], m) == ItemsOf(a, m)
  {
    var a' := a[..k] + a[k + 1..];
    match FindChild(a, m)
    case None =>
      forall j | 0 <= j < |a'|
        ensures a'[j].tag != m
      {
        assert a'[j] == a[if j < k then j else j + 1];
      }
    case Some(i) =>
      var i' := if i < k then i else i - 1;
      forall j | 0 <= j < i'
        ensures a'[j].tag != m
      {
        assert a'[j] == a[if j < k then j else j + 1];
      }
      assert a'[i'] == a[i];
      FindChildIs(a', m, i');
  }

  lemma {:induction false} LiftedItemsRemove(a: seq<Elem>, k: nat, names: seq<string>)
    requires k < |a| && a[k].tag !in names
    ensures LiftedItems(a[..k] + a[k + 1..], names) == LiftedItems(a, names)
    decreases |names|
  {
    if names != [] {
      ItemsOfRemove(a, k, names[0]);
      LiftedItemsRemove(a, k, names[1..]);
    }
  }

  lemma {:induction false} ItemsClearRemove(a: seq<Elem>, k: nat, names: seq<string>)
    requires k < |a| && a[k].tag !in names && ItemsClear(a, names)
    ensures ItemsClear(a[..k] + a[k + 1..], names)
    decreases |names|
  {
    if names != [] {
      ItemsOfRemove(a, k, names[0]);
      ItemsClearRemove(a, k, names[1..]);
    }
  }
}

module PivotRoundTrip {
  import opened Wrappers
  import opened Xml
  import opened JsonData
  import opened Decoding
  import opened DecodeProperties
  import opened Encoding
  import opened EncodeProperties
  import opened PivotLift

  // ---------------------------------------------------------------------------
  // The pivot loop as a fold over a run of children.

  /** The object the pivot loop builds from `obj` over the children `cs`. */
  function PivotSteps(obj: Fields, cs: seq<Elem>, rules: PivotRules): Result<Fields, ConvError>
    decreases |cs|
  {
    if cs == [] then Ok(obj)
    else
      var o :- PivotSteps(obj, cs[..|cs| - 1], rules);
      PivotStep(o, cs[|cs| - 1], rules)
  }

  lemma {:induction false} PivotEntrySteps(p: Elem, rules: PivotRules, i: nat)
    requires i <= |p.children|
    ensures PivotEntryUpTo(p, rules, i) == PivotSteps([], p.children[..i], rules)
    decreases i
  {
    if i > 0 {
      assert p.children[..i][..i - 1] == p.children[..i - 1];
      PivotEntrySteps(p, rules, i - 1);
    }
  }

  /** Two runs of children: the second continues from the object of the first. */
  lemma {:induction false} PivotStepsConcat(obj: Fields, a: seq<Elem>, b: seq<Elem>, rules: PivotRules)
    requires PivotSteps(obj, a, rules).Ok?
    ensures PivotSteps(obj, a + b, rules) == PivotSteps(PivotSteps(obj, a, rules).value, b, rules)
    decreases |b|
  {
    if b == [] {
      assert a + b == a;
    } else {
      assert (a + b)[..|a + b| - 1] == a + b[..|b| - 1];
      PivotStepsConcat(obj, a, b[..|b| - 1], rules);
    }
  }

  // ---------------------------------------------------------------------------
  // The fields the pivot handler rebuilds.

  /** The fields that are not lifted, in order. */
  function ScalarFields(fs: Fields, names: seq<string>): Fields {
    if fs == [] then []
    else ScalarFields(fs[..|fs| - 1], names) + (if fs[|fs| - 1].0 in names then [] else [fs[|fs| - 1]])
  }

  /** The lifted fields that are present, in the order of `names`. */
  function ListFields(fs: Fields, names: seq<string>): Fields
    decreases |names|
  {
    if names == [] then []
    else (if Lookup(fs, names[0]).Some? then [(names[0], Lookup(fs, names[0]).value)] else []) + ListFields(fs, names[1..])
  }

  /** The entry as the pivot handler rebuilds it: the lifted lists go last. */
  function Pivoted(fs: Fields, names: seq<string>): Fields {
    ScalarFields(fs, names) + ListFields(fs, names)
  }

  lemma {:induction false} ScalarFieldsLookup(fs: Fields, names: seq<string>, k: string)
    ensures Lookup(ScalarFields(fs, names), k) == if k in names then None else Lookup(fs, k)
    decreases |fs|
  {
    if fs != [] {
      var init := fs[..|fs| - 1];
      var last := fs[|fs| - 1];
      assert fs == init + [last];
      ScalarFieldsLookup(init, names, k);
      LookupConcat(init, [last], k);
      LookupConcat(ScalarFields(init, names), if last.0 in names then [] else [last], k);
    }
  }

  lemma {:induction false} ListFieldsLookup(fs: Fields, names: seq<string>, k: string)
    ensures Lookup(ListFields(fs, names), k) == if k in names then Lookup(fs, k) else None
    decreases |names|
  {
    if names != [] {
      var n := names[0];
      var here: Fields := if Lookup(fs, n).Some? then [(n, Lookup(fs, n).value)] else [];
      ListFieldsLookup(fs, names[1..], k);
      LookupConcat(here, ListFields(fs, names[1..]), k);
      assert k in names <==> k == n || k in names[1..] by {
        assert names == [n] + names[1..];
      }
    }
  }

  /** The rebuilt entry equals the entry as a dict: every key has the same
      value (Python's `==` on dicts ignores key order). */
  lemma {:induction false} PivotedLookup(fs: Fields, names: seq<string>, k: string)
    ensures Lookup(Pivoted(fs, names), k) == Lookup(fs, k)
  {
    ScalarFieldsLookup(fs, names, k);
    ListFieldsLookup(fs, names, k);
    LookupConcat(ScalarFields(fs, names), ListFields(fs, names), k);
  }

  // ---------------------------------------------------------------------------
  // The entries the round trip restores.

  /** A field of an entry: a str under a key that is not lifted and that no
      list child carries, or a non-empty list of strs under a lifted key
      whose items the handler appends back to that key (the items carry the
      key itself or a tag that is not lifted). */
  predicate PivotField(tags: string -> Option<string>, rules: PivotRules, names: seq<string>, k: string, v: Json) {
    FieldShape(rules, names, k, v) && (k in names ==> ListKey(tags, rules, names, k))
  }

  /** A field the lift turns into repeated children (a non-empty list of
      strings), or a plain string field no pivot rule treats as a list. */
  predicate FieldShape(rules: PivotRules, names: seq<string>, k: string, v: Json) {
    if k in names then v.Arr? && v.items != [] && AllStr(v.items)
    else v.Str? && ListFieldFor(rules.lists, k).None?
  }

  /** The table gives list field `k` an item tag that the pivot rules map back
      to `k`, and that tag is not itself another lifted list. */
  predicate ListKey(tags: string -> Option<string>, rules: PivotRules, names: seq<string>, k: string) {
    tags(k).Some? && ListFieldFor(rules.lists, tags(k).value) == Some(k) &&
    (tags(k).value == k || tags(k).value !in names)
  }

  predicate PivotReady(tags: string -> Option<string>, rules: PivotRules, names: seq<string>, fs: Fields) {
    UniqueKeys(fs) && Distinct(names) &&
    forall j :: 0 <= j < |fs| ==> PivotField(tags, rules, names, fs[j].0, fs[j].1)
  }

  /** The element built for one field: a text leaf, or a container of text items. */
  lemma {:induction false} ReadyValue(tags: string -> Option<string>, rules: PivotRules, names: seq<string>, k: string, v: Json)
    requires PivotField(tags, rules, names, k, v)
    ensures EncodeValue(tags, k, v).Ok?
    ensures k !in names ==> EncodeValue(tags, k, v).value == Elem(k, Some(v.s), map[], [])
    ensures k in names ==>
              EncodeItems(tags, tags(k).value, v.items, |v.items|).Ok? &&
              EncodeValue(tags, k, v).value == Elem(k, None, map[], EncodeItems(tags, tags(k).value, v.items, |v.items|).value)
  {
    if k in names {
      TextItems(tags, tags(k).value, v.items);
    }
  }

  lemma {:induction false} ReadyEncodes(tags: string -> Option<string>, rules: PivotRules, names: seq<string>, fs: Fields)
    requires PivotReady(tags, rules, names, fs)
    ensures EncodeFields(tags, fs, |fs|).Ok?
    ensures forall j :: 0 <= j < |fs| ==> EncodeValue(tags, fs[j].0, fs[j].1).Ok?
    ensures var a := EncodeFields(tags, fs, |fs|).value;
      |a| == |fs| && forall j :: 0 <= j < |fs| ==> a[j] == EncodeValue(tags, fs[j].0, fs[j].1).value
    ensures var a := EncodeFields(tags, fs, |fs|).value;
      forall j :: 0 <= j < |fs| ==> a[j].tag == fs[j].0
  {
    forall j | 0 <= j < |fs|
      ensures EncodeValue(tags, fs[j].0, fs[j].1).Ok?
    {
      ReadyValue(tags, rules, names, fs[j].0, fs[j].1);
    }
    EncodeFieldsPointwise(tags, fs, |fs|);
  }

  /** The container for a lifted key is found exactly when the key is
      present, and it is the element of that key's field. */
  lemma {:induction false} FindKey(tags: string -> Option<string>, rules: PivotRules, names: seq<string>, fs: Fields, n: string)
    requires PivotReady(tags, rules, names, fs)
    ensures EncodeFields(tags, fs, |fs|).Ok?
    ensures var a := EncodeFields(tags, fs, |fs|).value;
      (FindChild(a, n).Some? <==> Lookup(fs, n).Some?) &&
      (FindChild(a, n).Some? ==> FindChild(a, n).value < |fs| &&
                                 fs[FindChild(a, n).value] == (n, Lookup(fs, n).value))
  {
    ReadyEncodes(tags, rules, names, fs);
    var a := EncodeFields(tags, fs, |fs|).value;
    KeysIndex(fs);
    UniqueKeysIndex(fs);
    match FindChild(a, n)
    case Some(i) =>
      LookupIndex(fs, i);
    case None =>
  }

  /** The container of a lifted key: none when the key is absent, else the
      text items of its list, each carrying the item tag. */
  lemma {:induction false} ItemsOfKey(tags: string -> Option<string>, rules: PivotRules, names: seq<string>, fs: Fields, n: string)
    requires PivotReady(tags, rules, names, fs) && n in names
    ensures EncodeFields(tags, fs, |fs|).Ok?
    ensures Lookup(fs, n).None? ==> ItemsOf(EncodeFields(tags, fs, |fs|).value, n) == []
    ensures Lookup(fs, n).Some? ==>
              var v := Lookup(fs, n).value;
              PivotField(tags, rules, names, n, v) &&
              EncodeItems(tags, tags(n).value, v.items, |v.items|).Ok? &&
              ItemsOf(EncodeFields(tags, fs, |fs|).value, n) == EncodeItems(tags, tags(n).value, v.items, |v.items|).value
  {
    FindKey(tags, rules, names, fs, n);
    ReadyEncodes(tags, rules, names, fs);
    var a := EncodeFields(tags, fs, |fs|).value;
    if Lookup(fs, n).Some? {
      var k := FindChild(a, n).value;
      ReadyValue(tags, rules, names, fs[k].0, fs[k].1);
    }
  }

  /** The first item of a lifted list creates its list field. */
  lemma {:induction false} ItemFirst(rules: PivotRules, obj: Fields, item: string, f: string, xs: seq<Json>)
    requires |xs| > 0 && xs[0].Str? && f !in Keys(obj) && ListFieldFor(rules.lists, item) == Some(f)
    ensures PivotStep(obj, Elem(item, Some(xs[0].s), map[], []), rules) == Ok(obj + [(f, Arr(xs[..1]))])
  {
    AssignFresh(obj, f, Arr([xs[0]]));
    assert xs[..1] == [xs[0]];
  }

  /** A later item is appended to the list field created by the first. */
  lemma {:induction false} ItemNext(rules: PivotRules, obj: Fields, item: string, f: string, xs: seq<Json>, i: nat)
    requires 1 < i <= |xs| && xs[i - 1].Str? && f !in Keys(obj) && ListFieldFor(rules.lists, item) == Some(f)
    ensures PivotStep(obj + [(f, Arr(xs[..i - 1]))], Elem(item, Some(xs[i - 1].s), map[], []), rules)
         == Ok(obj + [(f, Arr(xs[..i]))])
  {
    LookupLast(obj, f, Arr(xs[..i - 1]));
    AssignLast(obj, f, Arr(xs[..i - 1]), Arr(xs[..i - 1] + [xs[i - 1]]));
    assert xs[..i - 1] + [xs[i - 1]] == xs[..i];
  }

  /** The items of one lifted list, replayed: the first creates the list
      field, each later one is appended to it. */
  lemma ItemSteps(tags: string -> Option<string>, rules: PivotRules, obj: Fields,
                                     item: string, f: string, xs: seq<Json>, i: nat)
    requires 0 < i <= |xs| && AllStr(xs) && f !in Keys(obj) && ListFieldFor(rules.lists, item) == Some(f)
    ensures EncodeItems(tags, item, xs, i).Ok?
    ensures PivotSteps(obj, EncodeItems(tags, item, xs, i).value, rules) == Ok(obj + [(f, Arr(xs[..i]))])
    decreases i
  {
    EncodeItemsPointwise(tags, item, xs, i - 1);
    var init := EncodeItems(tags, item, xs, i - 1).value;
    var c := Elem(item, Some(xs[i - 1].s), map[], []);
    assert EncodeItems(tags, item, xs, i) == Ok(init + [c]);
    assert (init + [c])[..|init + [c]| - 1] == init;
    if i == 1 {
      var empty: seq<Elem> := [];
      assert init == empty;
      ItemFirst(rules, obj, item, f, xs);
    } else {
      ItemSteps(tags, rules, obj, item, f, xs, i - 1);
      ItemNext(rules, obj, item, f, xs, i);
    }
  }

  lemma {:induction false} ReadyOk(tags: string -> Option<string>, rules: PivotRules, names: seq<string>, fs: Fields)
    requires PivotReady(tags, rules, names, fs)
    ensures EncodeFields(tags, fs, |fs|).Ok?
  {
    ReadyEncodes(tags, rules, names, fs);
  }

  /** The list field of one key: present with its value, or absent. */
  lemma {:induction false} ListFieldsOne(fs: Fields, n: string)
    ensures ListFields(fs, [n]) == if Lookup(fs, n).Some? then [(n, Lookup(fs, n).value)] else []
    ensures Keys(ListFields(fs, [n])) == if Lookup(fs, n).Some? then [n] else []
  {
    assert [n][1..] == [];
  }

  /** One lifted container, replayed: its list field, if present, is
      appended to the object. */
  lemma {:induction false} ListStep(tags: string -> Option<string>, rules: PivotRules, names: seq<string>, fs: Fields, obj: Fields, n: string)
    requires PivotReady(tags, rules, names, fs) && n in names && n !in Keys(obj)
    ensures EncodeFields(tags, fs, |fs|).Ok?
    ensures PivotSteps(obj, ItemsOf(EncodeFields(tags, fs, |fs|).value, n), rules) == Ok(obj + ListFields(fs, [n]))
  {
    ItemsOfKey(tags, rules, names, fs, n);
    ListFieldsOne(fs, n);
    if Lookup(fs, n).Some? {
      var v := Lookup(fs, n).value;
      assert PivotField(tags, rules, names, n, v);
      assert v.Arr? && AllStr(v.items) && v.items != [];
      var xs := v.items;
      ItemSteps(tags, rules, obj, tags(n).value, n, xs, |xs|);
      assert xs[..|xs|] == xs;
    } else {
      var empty: seq<Elem> := [];
      assert PivotSteps(obj, empty, rules) == Ok(obj);
      assert obj + [] == obj;
    }
  }

  /** The lifted containers, replayed in the order of `names`: the list
      fields are appended in that order. */
  lemma {:induction false} LiftedSteps(tags: string -> Option<string>, rules: PivotRules, names: seq<string>,
                                       fs: Fields, obj: Fields, m: nat)
    requires PivotReady(tags, rules, names, fs) && m <= |names|
    requires forall x :: m <= x < |names| ==> names[x] !in Keys(obj)
    ensures EncodeFields(tags, fs, |fs|).Ok?
    ensures PivotSteps(obj, LiftedItems(EncodeFields(tags, fs, |fs|).value, names[m..]), rules)
         == Ok(obj + ListFields(fs, names[m..]))
    decreases |names| - m
  {
    ReadyOk(tags, rules, names, fs);
    var a := EncodeFields(tags, fs, |fs|).value;
    if m == |names| {
      assert names[m..] == [];
      assert obj + [] == obj;
    } else {
      var n := names[m];
      LiftedUnfold(fs, a, names, m);
      ListStep(tags, rules, names, fs, obj, n);
      PivotStepsConcat(obj, ItemsOf(a, n), LiftedItems(a, names[m + 1..]), rules);
      FreshAfterList(names, fs, obj, m);
      LiftedSteps(tags, rules, names, fs, obj + ListFields(fs, [n]), m + 1);
      FieldsAssoc(obj, ListFields(fs, [n]), ListFields(fs, names[m + 1..]));
    }
  }

  /** Regrouping fields; a separate lemma keeps `LiftedSteps` small. */
  lemma {:induction false} FieldsAssoc(a: Fields, b: Fields, c: Fields)
    ensures (a + b) + c == a + (b + c)
  {
  }

  lemma {:induction false} LiftedUnfold(fs: Fields, a: seq<Elem>, names: seq<string>, m: nat)
    requires m < |names|
    ensures LiftedItems(a, names[m..]) == ItemsOf(a, names[m]) + LiftedItems(a, names[m + 1..])
    ensures ListFields(fs, names[m..]) == ListFields(fs, [names[m]]) + ListFields(fs, names[m + 1..])
  {
    assert names[m..][0] == names[m] && names[m..][1..] == names[m + 1..];
    ListFieldsOne(fs, names[m]);
  }

  /** A later lifted key is still fresh after one list field is appended. */
  lemma {:induction false} FreshAfterList(names: seq<string>, fs: Fields, obj: Fields, m: nat)
    requires m < |names| && Distinct(names)
    requires forall x :: m <= x < |names| ==> names[x] !in Keys(obj)
    ensures forall x :: m + 1 <= x < |names| ==> names[x] !in Keys(obj + ListFields(fs, [names[m]]))
  {
    KeysConcat(obj, ListFields(fs, [names[m]]));
    ListFieldsOne(fs, names[m]);
  }

  /** A scalar child with a fresh tag is stored under that tag, last. */
  lemma {:induction false} ScalarStep(rules: PivotRules, obj: Fields, k: string, t: string)
    requires k !in Keys(obj) && ListFieldFor(rules.lists, k).None?
    ensures PivotStep(obj, Elem(k, Some(t), map[], []), rules) == Ok(obj + [(k, Str(t))])
  {
    AssignFresh(obj, k, Str(t));
  }

  /** In a dict, the key of a field does not occur before it. */
  lemma {:induction false} PrefixFresh(fs: Fields, i: nat)
    requires UniqueKeys(fs) && 0 < i <= |fs|
    ensures fs[i - 1].0 !in Keys(fs[..i - 1])
  {
    UniqueKeysIndex(fs);
    KeysIndex(fs[..i - 1]);
  }

  /** The scalar fields of a prefix one longer. */
  lemma {:induction false} ScalarFieldsInit(fs: Fields, names: seq<string>, i: nat)
    requires 0 < i <= |fs|
    ensures ScalarFields(fs[..i], names)
         == ScalarFields(fs[..i - 1], names) + (if fs[i - 1].0 in names then [] else [fs[i - 1]])
  {
    assert fs[..i][..i - 1] == fs[..i - 1];
  }

  lemma {:induction false} KeptInit(cs: seq<Elem>, names: seq<string>, i: nat)
    requires 0 < i <= |cs|
    ensures Kept(cs[..i], names) == Kept(cs[..i - 1], names) + (if cs[i - 1].tag in names then [] else [cs[i - 1]])
  {
    assert cs[..i][..i - 1] == cs[..i - 1];
  }

  /** One more child replayed after a run of children. */
  lemma {:induction false} PivotStepsSnoc(obj: Fields, cs: seq<Elem>, c: Elem, rules: PivotRules)
    ensures PivotSteps(obj, cs + [c], rules)
         == if PivotSteps(obj, cs, rules).Ok? then PivotStep(PivotSteps(obj, cs, rules).value, c, rules)
            else PivotSteps(obj, cs, rules)
  {
    assert (cs + [c])[..|cs|] == cs;
  }

  /** The children that are not lifted, replayed: each stores its text under
      its own tag, in order, giving the scalar fields. */
  lemma {:induction false} ScalarSteps(tags: string -> Option<string>, rules: PivotRules, names: seq<string>, fs: Fields, i: nat)
    requires PivotReady(tags, rules, names, fs) && i <= |fs|
    ensures EncodeFields(tags, fs, |fs|).Ok? && |EncodeFields(tags, fs, |fs|).value| == |fs|
    ensures PivotSteps([], Kept(EncodeFields(tags, fs, |fs|).value[..i], names), rules) == Ok(ScalarFields(fs[..i], names))
    decreases i
  {
    ReadyEncodes(tags, rules, names, fs);
    var a := EncodeFields(tags, fs, |fs|).value;
    if i == 0 {
      assert a[..0] == [] && fs[..0] == [];
    } else {
      ScalarSteps(tags, rules, names, fs, i - 1);
      ScalarStepAt(tags, rules, names, fs, a, i);
    }
  }

  /** One more child replayed: a lifted one is skipped on both sides, any
      other adds its field last. */
  lemma {:induction false} ScalarStepAt(tags: string -> Option<string>, rules: PivotRules, names: seq<string>, fs: Fields, a: seq<Elem>, i: nat)
    requires 0 < i <= |fs| && i <= |a| && UniqueKeys(fs)
    requires PivotField(tags, rules, names, fs[i - 1].0, fs[i - 1].1)
    requires EncodeValue(tags, fs[i - 1].0, fs[i - 1].1) == Ok(a[i - 1])
    requires PivotSteps([], Kept(a[..i - 1], names), rules) == Ok(ScalarFields(fs[..i - 1], names))
    ensures PivotSteps([], Kept(a[..i], names), rules) == Ok(ScalarFields(fs[..i], names))
  {
    KeptInit(a, names, i);
    ScalarFieldsInit(fs, names, i);
    var k := fs[i - 1].0;
    var v := fs[i - 1].1;
    assert a[i - 1].tag == k;
    if k in names {
      assert Kept(a[..i], names) == Kept(a[..i - 1], names);
      assert ScalarFields(fs[..i], names) == ScalarFields(fs[..i - 1], names);
    } else {
      PrefixFresh(fs, i);
      ScalarFieldsLookup(fs[..i - 1], names, k);
      ScalarReplay(tags, rules, names, k, v, ScalarFields(fs[..i - 1], names), Kept(a[..i - 1], names), a[i - 1]);
      assert fs[i - 1] == (k, v);
      assert Kept(a[..i], names) == Kept(a[..i - 1], names) + [a[i - 1]];
      assert ScalarFields(fs[..i], names) == ScalarFields(fs[..i - 1], names) + [(k, v)];
    }
  }

  lemma {:induction false} ScalarReplay(tags: string -> Option<string>, rules: PivotRules, names: seq<string>, k: string, v: Json,
                     obj: Fields, before: seq<Elem>, c: Elem)
    requires PivotField(tags, rules, names, k, v) && k !in names
    requires EncodeValue(tags, k, v) == Ok(c)
    requires PivotSteps([], before, rules) == Ok(obj) && Lookup(obj, k).None?
    ensures PivotSteps([], before + [c], rules) == Ok(obj + [(k, v)])
  {
    ReadyValue(tags, rules, names, k, v);
    PivotStepsSnoc([], before, c, rules);
    ScalarStep(rules, obj, k, v.s);
  }

  // ---------------------------------------------------------------------------
  // The entry round trip.

  /** The children of an encoded entry carry distinct tags. */
  lemma {:induction false} ReadyDistinct(tags: string -> Option<string>, rules: PivotRules, names: seq<string>, fs: Fields)
    requires PivotReady(tags, rules, names, fs)
    ensures EncodeFields(tags, fs, |fs|).Ok? && DistinctTags(EncodeFields(tags, fs, |fs|).value)
  {
    ReadyEncodes(tags, rules, names, fs);
    UniqueKeysIndex(fs);
  }

  /** The items of a lifted container carry its own tag or one that is not lifted. */
  lemma {:induction false} ItemsClearHead(tags: string -> Option<string>, rules: PivotRules, names: seq<string>, fs: Fields, m: nat)
    requires PivotReady(tags, rules, names, fs) && m < |names|
    ensures EncodeFields(tags, fs, |fs|).Ok?
    ensures forall c :: c in ItemsOf(EncodeFields(tags, fs, |fs|).value, names[m]) ==> c.tag !in names[m + 1..]
  {
    var n := names[m];
    ItemsOfKey(tags, rules, names, fs, n);
    var a := EncodeFields(tags, fs, |fs|).value;
    if Lookup(fs, n).Some? {
      var xs := Lookup(fs, n).value.items;
      var item := tags(n).value;
      TextItems(tags, item, xs);
      forall c | c in ItemsOf(a, n)
        ensures c.tag !in names[m + 1..]
      {
        assert c.tag == item;
      }
    }
  }

  lemma {:induction false} ReadyClear(tags: string -> Option<string>, rules: PivotRules, names: seq<string>, fs: Fields, m: nat)
    requires PivotReady(tags, rules, names, fs) && m <= |names|
    ensures EncodeFields(tags, fs, |fs|).Ok? && ItemsClear(EncodeFields(tags, fs, |fs|).value, names[m..])
    decreases |names| - m
  {
    ReadyOk(tags, rules, names, fs);
    if m < |names| {
      ItemsClearHead(tags, rules, names, fs, m);
      ReadyClear(tags, rules, names, fs, m + 1);
      assert names[m..][0] == names[m] && names[m..][1..] == names[m + 1..];
    }
  }

  /** No lifted key is among the scalar fields. */
  lemma {:induction false} ScalarsFresh(fs: Fields, names: seq<string>)
    ensures forall x :: 0 <= x < |names| ==> names[x] !in Keys(ScalarFields(fs, names))
  {
    forall x | 0 <= x < |names|
      ensures names[x] !in Keys(ScalarFields(fs, names))
    {
      ScalarFieldsLookup(fs, names, names[x]);
    }
  }

  /** The children of the lifted entry, replayed: the scalar fields, then the
      lifted lists. */
  lemma {:induction false} ReplayEntry(tags: string -> Option<string>, rules: PivotRules, names: seq<string>, fs: Fields)
    requires PivotReady(tags, rules, names, fs)
    ensures EncodeFields(tags, fs, |fs|).Ok?
    ensures var a := EncodeFields(tags, fs, |fs|).value;
      PivotSteps([], Kept(a, names) + LiftedItems(a, names), rules) == Ok(Pivoted(fs, names))
  {
    ScalarSteps(tags, rules, names, fs, |fs|);
    var a := EncodeFields(tags, fs, |fs|).value;
    assert a[..|fs|] == a && fs[..|fs|] == fs;
    ScalarsFresh(fs, names);
    LiftedSteps(tags, rules, names, fs, ScalarFields(fs, names), 0);
    assert names[0..] == names;
    PivotStepsConcat([], Kept(a, names), LiftedItems(a, names), rules);
  }

  /** The pivot round trip of one entry: an entry whose lifted keys hold
      non-empty lists of strs, encoded, lifted by the FirewallRule pass and
      read back by the pivot handler, gives the same dict (every key with its
      value), with the lifted lists moved last. */
  lemma {:induction false} PivotEntryRoundTrip(tags: string -> Option<string>, rules: PivotRules, names: seq<string>, tag: string, fs: Fields)
    requires PivotReady(tags, rules, names, fs)
    ensures EncodeFields(tags, fs, |fs|).Ok?
    ensures PivotEntry(LiftAll(Elem(tag, None, map[], EncodeFields(tags, fs, |fs|).value), names), rules) == Ok(Pivoted(fs, names))
    ensures forall k :: Lookup(Pivoted(fs, names), k) == Lookup(fs, k)
  {
    ReadyDistinct(tags, rules, names, fs);
    ReadyClear(tags, rules, names, fs, 0);
    assert names[0..] == names;
    var a := EncodeFields(tags, fs, |fs|).value;
    LiftedEntry(tag, a, names);
    PivotEntryAll(LiftAll(Elem(tag, None, map[], a), names), rules);
    ReplayEntry(tags, rules, names, fs);
    PivotedSameDict(fs, names);
  }

  /** An entry without text: after the lift, its other children, then the items. */
  lemma {:induction false} LiftedEntry(tag: string, a: seq<Elem>, names: seq<string>)
    requires DistinctTags(a) && Distinct(names) && ItemsClear(a, names)
    ensures LiftAll(Elem(tag, None, map[], a), names) == Elem(tag, None, map[], Kept(a, names) + LiftedItems(a, names))
  {
    var e := Elem(tag, None, map[], a);
    var empty: seq<Elem> := [];
    assert a + empty == a && Kept(a, names) + empty + LiftedItems(a, names) == Kept(a, names) + LiftedItems(a, names);
    LiftAllShape(e, a, empty, names);
  }

  /** The pivot handler reads an entry's children in order. */
  lemma {:induction false} PivotEntryAll(p: Elem, rules: PivotRules)
    ensures PivotEntry(p, rules) == PivotSteps([], p.children, rules)
  {
    PivotEntrySteps(p, rules, |p.children|);
    assert p.children[..|p.children|] == p.children;
  }

  lemma {:induction false} PivotedSameDict(fs: Fields, names: seq<string>)
    ensures forall k :: Lookup(Pivoted(fs, names), k) == Lookup(fs, k)
  {
    forall k {
      PivotedLookup(fs, names, k);
    }
  }

  // ---------------------------------------------------------------------------
  // A whole pivot container: `AccessPaths` or `Exceptions`.

  function Objs(entries: seq<Fields>): (r: seq<Json>)
    ensures |r| == |entries|
  {
    seq(|entries|, j requires 0 <= j < |entries| => Obj(entries[j]))
  }

  /** Each entry as the handler rebuilds it. */
  function PivotedAll(entries: seq<Fields>, names: seq<string>): (r: seq<Json>)
    ensures |r| == |entries|
  {
    seq(|entries|, j requires 0 <= j < |entries| => Obj(Pivoted(entries[j], names)))
  }

  /** One entry of the container: encoded as an item carrying the entry tag,
      then lifted. */
  lemma {:induction false} EntryItem(tags: string -> Option<string>, rules: PivotRules, names: seq<string>, fs: Fields)
    requires PivotReady(tags, rules, names, fs)
    ensures EncodeItem(tags, rules.entry, Obj(fs)).Ok?
    ensures LiftAll(EncodeItem(tags, rules.entry, Obj(fs)).value, names).tag == rules.entry
    ensures PivotEntry(LiftAll(EncodeItem(tags, rules.entry, Obj(fs)).value, names), rules) == Ok(Pivoted(fs, names))
  {
    PivotEntryRoundTrip(tags, rules, names, rules.entry, fs);
    ReadyDistinct(tags, rules, names, fs);
    ReadyClear(tags, rules, names, fs, 0);
    assert names[0..] == names;
    LiftedEntry(rules.entry, EncodeFields(tags, fs, |fs|).value, names);
  }

  /** The pivot round trip of a container: a list of entries under a key
      whose items carry the entry tag, encoded, lifted entry by entry and read
      back by the handler, gives every entry back as its dict with the lifted
      lists moved last, in order. */
  lemma {:induction false} PivotContainerRoundTrip(tags: string -> Option<string>, rules: PivotRules, names: seq<string>,
                                key: string, entries: seq<Fields>)
    requires tags(key) == Some(rules.entry)
    requires forall j :: 0 <= j < |entries| ==> PivotReady(tags, rules, names, entries[j])
    ensures EncodeValue(tags, key, Arr(Objs(entries))).Ok?
    ensures PivotList(LiftEntries(EncodeValue(tags, key, Arr(Objs(entries))).value, names), rules)
         == Ok(PivotedAll(entries, names))
  {
    var xs := Objs(entries);
    forall j | 0 <= j < |xs|
      ensures EncodeItem(tags, rules.entry, xs[j]).Ok?
    {
      EntryItem(tags, rules, names, entries[j]);
    }
    EncodeItemsPointwise(tags, rules.entry, xs, |xs|);
    var c := EncodeValue(tags, key, Arr(xs)).value;
    var lifted := LiftEntries(c, names).children;
    forall j | 0 <= j < |lifted|
      ensures lifted[j].tag == rules.entry
      ensures PivotEntry(lifted[j], rules) == Ok(Pivoted(entries[j], names))
    {
      EntryItem(tags, rules, names, entries[j]);
    }
    ChildrenTaggedAll(lifted, rules.entry, true);
    PivotEntriesItems(lifted, rules);
    assert PivotEntries(lifted, rules).value == PivotedAll(entries, names);
  }
}
