/** `xml_to_json` and its two pivot handlers: an element tree becomes nested
    JSON-like data. Special cases are chosen by the child's tag alone. */
module Decoding {
  import opened Wrappers
  import opened Xml
  import opened JsonData
  import opened TagsOfLists

  /** `e.text` taken as a list item: the text, or None when there is none. */
  function TextItem(t: Option<string>): Json {
    if t.Some? then Str(t.value) else Null
  }

  /** `[e.text for e in parent.findall("./tag")]`. */
  function TextsOf(cs: seq<Elem>, tag: string): seq<Json> {
    var es := ChildrenTagged(cs, tag);
    seq(|es|, j requires 0 <= j < |es| => TextItem(es[j].text))
  }

  // ---------------------------------------------------------------------------
  // The pivot handlers (`_handle_FirewallRule_HTTPBasedPolicy_AccessPaths` and
  // `_Exceptions`): the same loop with different tags.

  /** The entry tag a pivot container collects, and the repeated children of
      an entry that accumulate into list fields: (child tag, field name). */
  datatype PivotRules = PivotRules(entry: string, lists: seq<(string, string)>)

  const AccessPathRules := PivotRules("AccessPath",
    [("backend", "backends"), ("allowed_networks", "allowed_networks"), ("denied_networks", "denied_networks")])

  const ExceptionRules := PivotRules("Exception",
    [("path", "paths"), ("source", "sources"), ("skip_threats_filter_categories", "skip_threats_filter_categories")])

  /** The list field a child with `tag` accumulates into (the first matching
      branch of the if/elif chain), if any. */
  function ListFieldFor(lists: seq<(string, string)>, tag: string): (r: Option<string>)
  {
    if lists == [] then None
    else if lists[0].0 == tag then Some(lists[0].1)
    else ListFieldFor(lists[1..], tag)
  }

  /** A tag gets a list field exactly when some branch of the chain tests
      that tag, and then the field is one such a branch appends to. */
  lemma {:induction false} ListFieldForBranch(lists: seq<(string, string)>, tag: string)
    ensures ListFieldFor(lists, tag).Some? ==> exists i :: 0 <= i < |lists| && lists[i] == (tag, ListFieldFor(lists, tag).value)
    ensures ListFieldFor(lists, tag).None? ==> forall i :: 0 <= i < |lists| ==> lists[i].0 != tag
    decreases |lists|
  {
    if lists != [] && lists[0].0 != tag {
      ListFieldForBranch(lists[1..], tag);
      if ListFieldFor(lists, tag).Some? {
        var i :| 0 <= i < |lists| - 1 && lists[1..][i] == (tag, ListFieldFor(lists, tag).value);
        assert lists[i + 1] == lists[1..][i];
      } else {
        forall i | 0 <= i < |lists|
          ensures lists[i].0 != tag
        {
          if i > 0 {
            assert lists[i] == lists[1..][i - 1];
          }
        }
      }
    }
  }

  /** `if f not in obj: obj[f] = []` then `obj[f].append(v)`; appending to a
      field that holds a str raises AttributeError. */
  function Append(obj: Fields, f: string, v: Json): Result<Fields, ConvError> {
    match Lookup(obj, f)
    case None => Ok(Assign(obj, f, Arr([v])))
    case Some(Arr(xs)) => Ok(Assign(obj, f, Arr(xs + [v])))
    case Some(_) => Err(AppendToText(f))
  }

  /** One child of a pivot entry: a list child is appended, any other child
      is stored as its text or "". */
  function PivotStep(obj: Fields, c: Elem, rules: PivotRules): Result<Fields, ConvError> {
    match ListFieldFor(rules.lists, c.tag)
    case Some(f) => Append(obj, f, TextItem(c.text))
    case None => Ok(Assign(obj, c.tag, Str(TextOr(c.text))))
  }

  /** The object built from the first `i` children of a pivot entry. */
  function PivotEntryUpTo(p: Elem, rules: PivotRules, i: nat): Result<Fields, ConvError>
    requires i <= |p.children|
  {
    if i == 0 then Ok([])
    else
      var obj :- PivotEntryUpTo(p, rules, i - 1);
      PivotStep(obj, p.children[i - 1], rules)
  }

  function PivotEntry(p: Elem, rules: PivotRules): Result<Fields, ConvError> {
    PivotEntryUpTo(p, rules, |p.children|)
  }

  /** The objects of a list of entries, in order; the first failure wins. */
  function PivotEntries(ps: seq<Elem>, rules: PivotRules): Result<seq<Json>, ConvError> {
    if ps == [] then Ok([])
    else
      var xs :- PivotEntries(ps[..|ps| - 1], rules);
      var obj :- PivotEntry(ps[|ps| - 1], rules);
      Ok(xs + [Obj(obj)])
  }

  /** A pivot container decodes to one object per child tagged `rules.entry`;
      children with other tags are skipped. */
  function PivotList(c: Elem, rules: PivotRules): Result<seq<Json>, ConvError> {
    PivotEntries(ChildrenTagged(c.children, rules.entry), rules)
  }

  // ---------------------------------------------------------------------------
  // `xml_to_json`

  /** An element without children is its text or ""; otherwise an object
      holding one field per child (later same-tag children overwrite earlier
      ones in place). */
  function Decode(tags: string -> Option<string>, e: Elem): Result<Json, ConvError>
    decreases e, 3
  {
    if |e.children| == 0 then Ok(Str(TextOr(e.text)))
    else
      var fs :- DecodeFields(tags, e, |e.children|);
      Ok(Obj(fs))
  }

  /** The object after the loop has handled the first `i` children. */
  function DecodeFields(tags: string -> Option<string>, e: Elem, i: nat): Result<Fields, ConvError>
    requires i <= |e.children|
    decreases e, 2, i
  {
    if i == 0 then Ok([])
    else
      var acc :- DecodeFields(tags, e, i - 1);
      var es :- ChildEntries(tags, e.children[i - 1]);
      Ok(AssignAll(acc, es))
  }

  /** The assignments one child makes to its parent's object, in order. */
  function ChildEntries(tags: string -> Option<string>, c: Elem): Result<Fields, ConvError>
    decreases c, 4
  {
    if |c.children| == 0 then Ok([(c.tag, Str(TextOr(c.text)))])
    else if c.tag == "Hosts" then
      Ok([("Hosts", Arr(TextsOf(c.children, "Host"))), ("DstHosts", Arr(TextsOf(c.children, "DstHost")))])
    else if c.tag == "AccessPaths" then
      var xs :- PivotList(c, AccessPathRules);
      Ok([("AccessPaths", Arr(xs))])
    else if c.tag == "Exceptions" then
      var xs :- PivotList(c, ExceptionRules);
      Ok([("Exceptions", Arr(xs))])
    else if tags(c.tag).Some? then
      var xs :- DecodeItems(tags, c, |c.children|);
      Ok([(c.tag, Arr(xs))])
    else
      var v :- Decode(tags, c);
      Ok([(c.tag, v)])
  }

  /** `[xml_to_json(x) for x in c]` over the first `i` children. */
  function DecodeItems(tags: string -> Option<string>, c: Elem, i: nat): Result<seq<Json>, ConvError>
    requires i <= |c.children|
    decreases c, 2, i
  {
    if i == 0 then Ok([])
    else
      var xs :- DecodeItems(tags, c, i - 1);
      var x :- Decode(tags, c.children[i - 1]);
      Ok(xs + [x])
  }

  // ---------------------------------------------------------------------------
  // Once a prefix fails, every longer prefix fails the same way.

  lemma {:induction false} DecodeFieldsFailureSticks(tags: string -> Option<string>, e: Elem, i: nat, j: nat)
    requires i <= j <= |e.children| && DecodeFields(tags, e, i).Err?
    ensures DecodeFields(tags, e, j) == DecodeFields(tags, e, i)
    decreases j
  {
    if i < j {
      DecodeFieldsFailureSticks(tags, e, i, j - 1);
    }
  }

  lemma {:induction false} DecodeItemsFailureSticks(tags: string -> Option<string>, c: Elem, i: nat, j: nat)
    requires i <= j <= |c.children| && DecodeItems(tags, c, i).Err?
    ensures DecodeItems(tags, c, j) == DecodeItems(tags, c, i)
    decreases j
  {
    if i < j {
      DecodeItemsFailureSticks(tags, c, i, j - 1);
    }
  }

  lemma PivotEntryFailureSticks(p: Elem, rules: PivotRules, i: nat, j: nat)
    requires i <= j <= |p.children| && PivotEntryUpTo(p, rules, i).Err?
    ensures PivotEntryUpTo(p, rules, j) == PivotEntryUpTo(p, rules, i)
    decreases j
  {
    if i < j {
      PivotEntryFailureSticks(p, rules, i, j - 1);
      PivotEntryErrStep(p, rules, i, j);
    }
  }

  lemma PivotEntryErrStep(p: Elem, rules: PivotRules, i: nat, j: nat)
    requires i < j <= |p.children| && PivotEntryUpTo(p, rules, i).Err?
    requires PivotEntryUpTo(p, rules, j - 1) == PivotEntryUpTo(p, rules, i)
    ensures PivotEntryUpTo(p, rules, j) == PivotEntryUpTo(p, rules, i)
  {
  }

  lemma {:induction false} PivotEntriesFailureSticks(ps: seq<Elem>, rules: PivotRules, n: nat)
    requires n <= |ps| && PivotEntries(ps[..n], rules).Err?
    ensures PivotEntries(ps, rules) == PivotEntries(ps[..n], rules)
    decreases |ps|
  {
    if n < |ps| {
      assert ps[..|ps| - 1][..n] == ps[..n];
      PivotEntriesFailureSticks(ps[..|ps| - 1], rules, n);
    } else {
      assert ps[..n] == ps;
    }
  }

  /** One more child of a pivot entry is one more step; a failing step is
      the failure of the whole entry. */
  lemma PivotEntryNext(p: Elem, rules: PivotRules, m: nat, obj: Fields, next: Result<Fields, ConvError>)
    requires m < |p.children| && PivotEntryUpTo(p, rules, m) == Ok(obj)
    requires next == PivotStep(obj, p.children[m], rules)
    ensures next == PivotEntryUpTo(p, rules, m + 1)
    ensures next.Err? ==> next == PivotEntry(p, rules)
  {
    if next.Err? {
      PivotEntryFailureSticks(p, rules, m + 1, |p.children|);
    }
  }

  /** One more child of an element is one more run of assignments; a
      failing child is the failure of the whole element. */
  lemma DecodeFieldsNext(tags: string -> Option<string>, e: Elem, i: nat, obj: Fields, entries: Result<Fields, ConvError>)
    requires i < |e.children| && DecodeFields(tags, e, i) == Ok(obj)
    requires entries == ChildEntries(tags, e.children[i])
    ensures entries.Err? ==> Decode(tags, e) == Err(entries.error)
    ensures entries.Ok? ==> DecodeFields(tags, e, i + 1) == Ok(AssignAll(obj, entries.value))
  {
    if entries.Err? {
      DecodeFieldsFailureSticks(tags, e, i + 1, |e.children|);
    }
  }

  lemma DecodeFieldsDone(tags: string -> Option<string>, e: Elem, obj: Fields)
    requires |e.children| > 0 && DecodeFields(tags, e, |e.children|) == Ok(obj)
    ensures Decode(tags, e) == Ok(Obj(obj))
  {
  }

  /** One more entry of a pivot container is one more object; a failing
      entry is the failure of the whole list. */
  lemma PivotEntriesNext(ps: seq<Elem>, rules: PivotRules, n: nat, list: seq<Json>, obj: Result<Fields, ConvError>)
    requires n < |ps| && PivotEntries(ps[..n], rules) == Ok(list) && obj == PivotEntry(ps[n], rules)
    ensures obj.Err? ==> PivotEntries(ps, rules) == Err(obj.error)
    ensures obj.Ok? ==> PivotEntries(ps[..n + 1], rules) == Ok(list + [Obj(obj.value)])
  {
    assert ps[..n + 1][..n] == ps[..n];
    if obj.Err? {
      PivotEntriesFailureSticks(ps, rules, n + 1);
    }
  }

  lemma PivotEntriesDone(ps: seq<Elem>, rules: PivotRules)
    ensures PivotEntries(ps[..|ps|], rules) == PivotEntries(ps, rules)
  {
    assert ps[..|ps|] == ps;
  }

  /** Creating a field and then assigning it again is one assignment. */
  lemma {:induction false} AssignTwice(fs: Fields, k: string, v1: Json, v2: Json)
    ensures Assign(Assign(fs, k, v1), k, v2) == Assign(fs, k, v2)
    decreases |fs|
  {
    if fs != [] && fs[0].0 != k {
      AssignTwice(fs[1..], k, v1, v2);
    }
  }

  // ---------------------------------------------------------------------------
  // The loops of the source, proved to compute the functions above. The
  // table of list containers is a parameter; `XmlToJson` passes the table
  // of `tags_of_lists.py`.

  /** `xml_to_json(elem)` with the list-container table of the library. */
  method XmlToJson(e: Elem) returns (r: Result<Json, ConvError>)
    ensures r == Decode(ListItemTag, e)
  {
    r := DecodeElement(ListItemTag, e);
  }

  /** The body of `xml_to_json`: one pass over the children of `e`. */
  method DecodeElement(tags: string -> Option<string>, e: Elem) returns (r: Result<Json, ConvError>)
    ensures r == Decode(tags, e)
    decreases e, 3
  {
    if |e.children| == 0 {
      return Ok(Str(TextOr(e.text)));
    }
    var obj: Fields := [];
    for i := 0 to |e.children|
      invariant DecodeFields(tags, e, i) == Ok(obj)
    {
      var entries := DecodeChild(tags, e.children[i]);
      DecodeFieldsNext(tags, e, i, obj, entries);
      if entries.Err? {
        return Err(entries.error);
      }
      obj := AssignAll(obj, entries.value);
    }
    DecodeFieldsDone(tags, e, obj);
    return Ok(Obj(obj));
  }

  /** One turn of the loop of `xml_to_json`: the assignments `attribute`
      makes to its parent's object, in the order the source makes them. */
  method DecodeChild(tags: string -> Option<string>, attribute: Elem) returns (r: Result<Fields, ConvError>)
    ensures r == ChildEntries(tags, attribute)
    decreases attribute, 4
  {
    if |attribute.children| == 0 {
      return Ok([(attribute.tag, Str(TextOr(attribute.text)))]);
    }
    if attribute.tag == "Hosts" {
      r := Ok([("Hosts", Arr(TextsOf(attribute.children, "Host"))),
               ("DstHosts", Arr(TextsOf(attribute.children, "DstHost")))]);
    } else if attribute.tag == "AccessPaths" {
      var paths := HandleAccessPaths(attribute);
      if paths.Err? {
        return Err(paths.error);
      }
      r := Ok([("AccessPaths", Arr(paths.value))]);
    } else if attribute.tag == "Exceptions" {
      var exceptions := HandleExceptions(attribute);
      if exceptions.Err? {
        return Err(exceptions.error);
      }
      r := Ok([("Exceptions", Arr(exceptions.value))]);
    } else if tags(attribute.tag).Some? {
      var items := DecodeList(tags, attribute);
      if items.Err? {
        return Err(items.error);
      }
      r := Ok([(attribute.tag, Arr(items.value))]);
    } else {
      var v := DecodeElement(tags, attribute);
      if v.Err? {
        return Err(v.error);
      }
      r := Ok([(attribute.tag, v.value)]);
    }
  }

  /** `[xml_to_json(e) for e in attribute]`. */
  method DecodeList(tags: string -> Option<string>, c: Elem) returns (r: Result<seq<Json>, ConvError>)
    ensures r == DecodeItems(tags, c, |c.children|)
    decreases c, 2
  {
    var items: seq<Json> := [];
    var j := 0;
    while j < |c.children|
      invariant 0 <= j <= |c.children|
      invariant DecodeItems(tags, c, j) == Ok(items)
    {
      var item := DecodeElement(tags, c.children[j]);
      if item.Err? {
        DecodeItemsFailureSticks(tags, c, j + 1, |c.children|);
        return Err(item.error);
      }
      items := items + [item.value];
      j := j + 1;
    }
    return Ok(items);
  }

  /** `_handle_FirewallRule_HTTPBasedPolicy_AccessPaths`. */
  method HandleAccessPaths(accessPaths: Elem) returns (r: Result<seq<Json>, ConvError>)
    ensures r == PivotList(accessPaths, AccessPathRules)
  {
    r := HandlePivot(accessPaths, AccessPathRules);
  }

  /** `_handle_FirewallRule_HTTPBasedPolicy_Exceptions`. */
  method HandleExceptions(exceptions: Elem) returns (r: Result<seq<Json>, ConvError>)
    ensures r == PivotList(exceptions, ExceptionRules)
  {
    r := HandlePivot(exceptions, ExceptionRules);
  }

  /** The outer loop both pivot handlers share: one object per entry. */
  method HandlePivot(container: Elem, rules: PivotRules) returns (r: Result<seq<Json>, ConvError>)
    ensures r == PivotList(container, rules)
  {
    var entries := ChildrenTagged(container.children, rules.entry);
    var list: seq<Json> := [];
    for n := 0 to |entries|
      invariant PivotEntries(entries[..n], rules) == Ok(list)
    {
      var obj := PivotObject(entries[n], rules);
      PivotEntriesNext(entries, rules, n, list, obj);
      if obj.Err? {
        return Err(obj.error);
      }
      list := list + [Obj(obj.value)];
    }
    PivotEntriesDone(entries, rules);
    return Ok(list);
  }

  /** The inner loop of the pivot handlers: the object of one entry. */
  method PivotObject(entry: Elem, rules: PivotRules) returns (r: Result<Fields, ConvError>)
    ensures r == PivotEntry(entry, rules)
  {
    var obj: Fields := [];
    var m := 0;
    while m < |entry.children|
      invariant m <= |entry.children| && PivotEntryUpTo(entry, rules, m) == Ok(obj)
    {
      var next := PivotChild(obj, entry.children[m], rules);
      PivotEntryNext(entry, rules, m, obj, next);
      if next.Err? {
        return next;
      }
      obj := next.value;
      m := m + 1;
    }
    return Ok(obj);
  }

  /** One turn of the inner loop: store or append one child of an entry. */
  method PivotChild(obj: Fields, attribute: Elem, rules: PivotRules) returns (r: Result<Fields, ConvError>)
    ensures r == PivotStep(obj, attribute, rules)
  {
    var field := ListFieldFor(rules.lists, attribute.tag);
    if field.None? {
      return Ok(Assign(obj, attribute.tag, Str(TextOr(attribute.text))));
    }
    var f := field.value;
    var item := TextItem(attribute.text);
    var acc := obj;
    if f !in Keys(acc) {
      AssignTwice(acc, f, Arr([]), Arr([item]));
      acc := Assign(acc, f, Arr([]));
      assert [] + [item] == [item];
    }
    var current := Lookup(acc, f).value;
    if !current.Arr? {
      return Err(AppendToText(f));
    }
    return Ok(Assign(acc, f, Arr(current.items + [item])));
  }
}
