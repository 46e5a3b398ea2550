/** The `FirewallRule` pass end to end: a `FirewallRule` dict whose
    `HTTPBasedPolicy` dict holds an `AccessPaths` or `Exceptions` list is
    written to XML, has the lists of each entry lifted, and is read back with
    the nested dicts in place and each entry rebuilt by its pivot handler. */
module FirewallPolicy {
  import opened Wrappers
  import opened Xml
  import opened JsonData
  import opened Decoding
  import opened Encoding
  import opened EncodeProperties
  import opened RoundTrip
  import opened RoundTripEntities
  import opened PivotLift
  import opened PivotRoundTrip
  import opened HostsMerge

  /** A `FirewallRule` dict: plain fields around an `HTTPBasedPolicy` dict,
      which holds the list `key` between plain fields. */
  function PolicyData(pre: Fields, ppre: Fields, key: string, xs: seq<Json>, ppost: Fields, post: Fields): Fields {
    pre + [("HTTPBasedPolicy", Obj(ppre + [(key, Arr(xs))] + ppost))] + post
  }

  /** A pivot container with the rules its handler reads it by and the lists
      the encoder lifts out of its entries. */
  predicate PivotKey(key: string, rules: PivotRules, names: seq<string>) {
    (key == "AccessPaths" && rules == AccessPathRules && names == AccessPathContainers) ||
    (key == "Exceptions" && rules == ExceptionRules && names == ExceptionContainers)
  }

  /** The fields around the list are plain, and both dicts have unique keys. */
  predicate PolicyPlain(tags: string -> Option<string>, pre: Fields, ppre: Fields, key: string, xs: seq<Json>, ppost: Fields, post: Fields) {
    PlainEach(tags, Reserved, pre, |pre|) && PlainEach(tags, Reserved, post, |post|) &&
    PlainEach(tags, Reserved, ppre, |ppre|) && PlainEach(tags, Reserved, ppost, |ppost|) &&
    UniqueKeys(PolicyData(pre, ppre, key, xs, ppost, post)) && UniqueKeys(ppre + [(key, Arr(xs))] + ppost)
  }

  // ---------------------------------------------------------------------------
  // Finding the container.

  /** `find("./parent/child")` finds the child of the first `parent` that has one. */
  lemma {:induction false} FindGrandchildAt(cs: seq<Elem>, k: nat, parent: string, child: string, j: nat)
    requires k < |cs| && cs[k].tag == parent && FindChild(cs[k].children, child) == Some(j)
    requires forall i :: 0 <= i < k ==> cs[i].tag != parent
    ensures FindGrandchild(cs, parent, child) == Some((k, j))
    decreases k
  {
    if k > 0 {
      var rest := cs[1..];
      assert rest[k - 1] == cs[k];
      forall i | 0 <= i < k - 1
        ensures rest[i].tag != parent
      {
        assert rest[i] == cs[i + 1];
      }
      FindGrandchildAt(rest, k - 1, parent, child, j);
    }
  }

  /** The lift of the container `key` of the one `HTTPBasedPolicy` child of
      the root rewrites that container and nothing else. */
  lemma {:induction false} LiftContainerAt(root: Elem, P: seq<Elem>, policy: Elem, Q: seq<Elem>,
                                           PP: seq<Elem>, c: Elem, PQ: seq<Elem>, key: string, names: seq<string>)
    requires root.children == P + [policy] + Q && policy.tag == "HTTPBasedPolicy" && policy.children == PP + [c] + PQ
    requires c.tag == key
    requires forall i :: 0 <= i < |P| ==> P[i].tag != "HTTPBasedPolicy"
    requires forall i :: 0 <= i < |PP| ==> PP[i].tag != key
    ensures LiftContainer(root, key, names) ==
      root.(children := P + [policy.(children := PP + [LiftEntries(c, names)] + PQ)] + Q)
  {
    var cs := root.children;
    forall i | 0 <= i < |P|
      ensures cs[i].tag != "HTTPBasedPolicy"
    {
      assert cs[i] == P[i];
    }
    forall i | 0 <= i < |PP|
      ensures policy.children[i].tag != key
    {
      assert policy.children[i] == PP[i];
    }
    FindChildIs(policy.children, key, |PP|);
    FindGrandchildAt(cs, |P|, "HTTPBasedPolicy", key, |PP|);
    var policy' := policy.(children := PP + [LiftEntries(c, names)] + PQ);
    assert policy.children[|PP|] == c;
    assert policy.children[|PP| := LiftEntries(c, names)] == policy'.children;
    assert cs[|P| := policy'] == P + [policy'] + Q;
  }

  /** No `HTTPBasedPolicy` child of the root has a `key` child: the lift of
      `key` changes nothing. */
  lemma {:induction false} LiftContainerNone(root: Elem, P: seq<Elem>, policy: Elem, Q: seq<Elem>, key: string, names: seq<string>)
    requires root.children == P + [policy] + Q
    requires forall i :: 0 <= i < |P| ==> P[i].tag != "HTTPBasedPolicy"
    requires forall i :: 0 <= i < |Q| ==> Q[i].tag != "HTTPBasedPolicy"
    requires forall i :: 0 <= i < |policy.children| ==> policy.children[i].tag != key
    ensures LiftContainer(root, key, names) == root
  {
    var cs := root.children;
    forall i | 0 <= i < |cs| && i != |P|
      ensures cs[i].tag != "HTTPBasedPolicy"
    {
      if i < |P| {
        assert cs[i] == P[i];
      } else {
        assert cs[i] == Q[i - |P| - 1];
      }
    }
    assert cs[|P|] == policy;
    FindGrandchildNone(cs, "HTTPBasedPolicy", key);
  }

  // ---------------------------------------------------------------------------
  // Encoding.

  /** The elements of plain fields whose keys differ from `t` carry other tags. */
  lemma {:induction false} TagsDiffer(tags: string -> Option<string>, fs: Fields, t: string)
    requires EncodeFields(tags, fs, |fs|).Ok? && t !in Keys(fs)
    ensures var cs := EncodeFields(tags, fs, |fs|).value;
      forall i :: 0 <= i < |cs| ==> cs[i].tag != t
  {
    EncodeFieldsPointwise(tags, fs, |fs|);
    KeysIndex(fs);
    var cs := EncodeFields(tags, fs, |fs|).value;
    forall i | 0 <= i < |cs|
      ensures cs[i].tag != t
    {
      assert Keys(fs)[i] == fs[i].0;
    }
  }

  /** A key of the dict around one field is not that field's key. */
  lemma {:induction false} KeyAround(pre: Fields, f: (string, Json), post: Fields)
    requires UniqueKeys(pre + [f] + post)
    ensures f.0 !in Keys(pre) && f.0 !in Keys(post)
  {
    var fs := pre + [f] + post;
    UniqueKeysIndex(fs);
    KeysIndex(pre);
    KeysIndex(post);
    assert fs[|pre|] == f;
    forall i | 0 <= i < |pre|
      ensures Keys(pre)[i] != f.0
    {
      assert fs[i] == pre[i];
    }
    forall i | 0 <= i < |post|
      ensures Keys(post)[i] != f.0
    {
      assert fs[|pre| + 1 + i] == post[i];
    }
  }

  /** Plain fields, one field, plain fields: their elements in order. */
  lemma {:induction false} EncodeAround(tags: string -> Option<string>, pre: Fields, f: (string, Json), post: Fields)
    requires EncodeFields(tags, pre, |pre|).Ok? && EncodeFields(tags, post, |post|).Ok? && EncodeValue(tags, f.0, f.1).Ok?
    ensures EncodeFields(tags, pre + [f] + post, |pre + [f] + post|) ==
      Ok(EncodeFields(tags, pre, |pre|).value + [EncodeValue(tags, f.0, f.1).value] + EncodeFields(tags, post, |post|).value)
  {
    EncodeFieldsSingle(tags, f);
    EncodeFieldsConcat(tags, pre, [f]);
    EncodeFieldsConcat(tags, pre + [f], post);
  }

  /** The tree the pass leaves: the root's `HTTPBasedPolicy` child with the
      container's entries lifted, everything else as `_json_to_xml` built it. */
  function PolicyTree(tags: string -> Option<string>, pre: Fields, ppre: Fields, c: Elem, ppost: Fields, post: Fields): Elem
    requires EncodeFields(tags, pre, |pre|).Ok? && EncodeFields(tags, post, |post|).Ok?
    requires EncodeFields(tags, ppre, |ppre|).Ok? && EncodeFields(tags, ppost, |ppost|).Ok?
  {
    Elem("FirewallRule", None, map[],
         EncodeFields(tags, pre, |pre|).value +
         [Elem("HTTPBasedPolicy", None, map[], EncodeFields(tags, ppre, |ppre|).value + [c] + EncodeFields(tags, ppost, |ppost|).value)] +
         EncodeFields(tags, post, |post|).value)
  }

  /** The elements `_json_to_xml` builds for the rule's fields. */
  lemma {:induction false} EncodePolicyFields(tags: string -> Option<string>, key: string, pre: Fields, ppre: Fields,
                                              xs: seq<Json>, ppost: Fields, post: Fields)
    requires PolicyPlain(tags, pre, ppre, key, xs, ppost, post) && EncodeValue(tags, key, Arr(xs)).Ok?
    ensures EncodeFields(tags, pre, |pre|).Ok? && EncodeFields(tags, post, |post|).Ok?
    ensures EncodeFields(tags, ppre, |ppre|).Ok? && EncodeFields(tags, ppost, |ppost|).Ok?
    ensures var data := PolicyData(pre, ppre, key, xs, ppost, post);
      EncodeFields(tags, data, |data|) == Ok(PolicyTree(tags, pre, ppre, EncodeValue(tags, key, Arr(xs)).value, ppost, post).children)
  {
    HostTags();
    NoReservedEach(tags, Reserved, pre, |pre|, "Hosts");
    NoReservedEach(tags, Reserved, post, |post|, "Hosts");
    NoReservedEach(tags, Reserved, ppre, |ppre|, "Hosts");
    NoReservedEach(tags, Reserved, ppost, |ppost|, "Hosts");
    var inner := ppre + [(key, Arr(xs))] + ppost;
    EncodeAround(tags, ppre, (key, Arr(xs)), ppost);
    EncodeAround(tags, pre, ("HTTPBasedPolicy", Obj(inner)), post);
  }

  /** `json_to_xml("FirewallRule", data)`: the policy has children, so the
      pass runs; it lifts the entries of the container `key` and finds no
      container of the other kind. */
  lemma {:induction false} EncodePolicy(tags: string -> Option<string>, key: string, rules: PivotRules, names: seq<string>,
                                        pre: Fields, ppre: Fields, xs: seq<Json>, ppost: Fields, post: Fields)
    requires PivotKey(key, rules, names) && PolicyPlain(tags, pre, ppre, key, xs, ppost, post)
    requires EncodeValue(tags, key, Arr(xs)).Ok?
    ensures EncodeFields(tags, pre, |pre|).Ok? && EncodeFields(tags, post, |post|).Ok?
    ensures EncodeFields(tags, ppre, |ppre|).Ok? && EncodeFields(tags, ppost, |ppost|).Ok?
    ensures Encode(tags, "FirewallRule", PolicyData(pre, ppre, key, xs, ppost, post)) ==
      Ok(PolicyTree(tags, pre, ppre, LiftEntries(EncodeValue(tags, key, Arr(xs)).value, names), ppost, post))
  {
    EncodePolicyFields(tags, key, pre, ppre, xs, ppost, post);
    HostTags();
    KeyAround(pre, ("HTTPBasedPolicy", Obj(ppre + [(key, Arr(xs))] + ppost)), post);
    TagsDiffer(tags, pre, "HTTPBasedPolicy");
    TagsDiffer(tags, post, "HTTPBasedPolicy");
    NoReservedEach(tags, Reserved, ppre, |ppre|, "AccessPaths");
    NoReservedEach(tags, Reserved, ppre, |ppre|, "Exceptions");
    NoReservedEach(tags, Reserved, ppost, |ppost|, "AccessPaths");
    NoReservedEach(tags, Reserved, ppost, |ppost|, "Exceptions");
    var c := EncodeValue(tags, key, Arr(xs)).value;
    var root := PolicyTree(tags, pre, ppre, c, ppost, post);
    var P := EncodeFields(tags, pre, |pre|).value;
    var Q := EncodeFields(tags, post, |post|).value;
    var PP := EncodeFields(tags, ppre, |ppre|).value;
    var PQ := EncodeFields(tags, ppost, |ppost|).value;
    LiftPivotsAt(root, P, root.children[|P|], Q, PP, c, PQ, key, rules, names);
  }

  /** The pass on a root whose one `HTTPBasedPolicy` child holds the
      container `key` and no other pivot container: it runs, and rewrites
      that container only. */
  lemma {:induction false} LiftPivotsAt(root: Elem, P: seq<Elem>, policy: Elem, Q: seq<Elem>,
                                        PP: seq<Elem>, c: Elem, PQ: seq<Elem>, key: string, rules: PivotRules, names: seq<string>)
    requires PivotKey(key, rules, names)
    requires root.children == P + [policy] + Q && policy.tag == "HTTPBasedPolicy" && policy.children == PP + [c] + PQ
    requires c.tag == key
    requires forall i :: 0 <= i < |P| ==> P[i].tag != "HTTPBasedPolicy"
    requires forall i :: 0 <= i < |Q| ==> Q[i].tag != "HTTPBasedPolicy"
    requires forall i :: 0 <= i < |PP| ==> PP[i].tag != "AccessPaths" && PP[i].tag != "Exceptions"
    requires forall i :: 0 <= i < |PQ| ==> PQ[i].tag != "AccessPaths" && PQ[i].tag != "Exceptions"
    ensures HasPolicy(root)
    ensures LiftPivots(root) == root.(children := P + [policy.(children := PP + [LiftEntries(c, names)] + PQ)] + Q)
  {
    PolicyFound(root, P, policy, Q);
    var policy' := policy.(children := PP + [LiftEntries(c, names)] + PQ);
    var lifted := root.(children := P + [policy'] + Q);
    var other := if key == "AccessPaths" then "Exceptions" else "AccessPaths";
    assert "AccessPaths"[0] != "Exceptions"[0];
    OtherAbsent(PP, LiftEntries(c, names), PQ, other);
    OtherAbsent(PP, c, PQ, other);
    LiftContainerAt(root, P, policy, Q, PP, c, PQ, key, names);
    if key == "AccessPaths" {
      LiftContainerNone(lifted, P, policy', Q, other, ExceptionContainers);
    } else {
      LiftContainerNone(root, P, policy, Q, other, AccessPathContainers);
    }
  }

  /** `find("./HTTPBasedPolicy")` is the policy, and it has children. */
  lemma {:induction false} PolicyFound(root: Elem, P: seq<Elem>, policy: Elem, Q: seq<Elem>)
    requires root.children == P + [policy] + Q && policy.tag == "HTTPBasedPolicy" && |policy.children| > 0
    requires forall i :: 0 <= i < |P| ==> P[i].tag != "HTTPBasedPolicy"
    ensures HasPolicy(root)
  {
    forall i | 0 <= i < |P|
      ensures root.children[i].tag != "HTTPBasedPolicy"
    {
      assert root.children[i] == P[i];
    }
    FindChildIs(root.children, "HTTPBasedPolicy", |P|);
  }

  /** Around a child of another tag, children free of `other` stay free of it. */
  lemma {:induction false} OtherAbsent(PP: seq<Elem>, c: Elem, PQ: seq<Elem>, other: string)
    requires c.tag != other
    requires forall i :: 0 <= i < |PP| ==> PP[i].tag != other
    requires forall i :: 0 <= i < |PQ| ==> PQ[i].tag != other
    ensures var cs := PP + [c] + PQ;
      forall i :: 0 <= i < |cs| ==> cs[i].tag != other
  {
    var cs := PP + [c] + PQ;
    forall i | 0 <= i < |cs|
      ensures cs[i].tag != other
    {
      if i < |PP| {
        assert cs[i] == PP[i];
      } else if i > |PP| {
        assert cs[i] == PQ[i - |PP| - 1];
      }
    }
  }

  // ---------------------------------------------------------------------------
  // Decoding, and the round trip.

  /** Replacing one field's value keeps the keys unique. */
  lemma {:induction false} SwapValue(pre: Fields, k: string, v: Json, w: Json, post: Fields)
    requires UniqueKeys(pre + [(k, v)] + post)
    ensures UniqueKeys(pre + [(k, w)] + post)
  {
    var a := pre + [(k, v)] + post;
    var b := pre + [(k, w)] + post;
    UniqueKeysIndex(a);
    UniqueKeysIndex(b);
    forall i | 0 <= i < |b|
      ensures b[i].0 == a[i].0
    {
      if i < |pre| {
        assert a[i] == pre[i] && b[i] == pre[i];
      } else if i > |pre| {
        assert a[i] == post[i - |pre| - 1] && b[i] == post[i - |pre| - 1];
      }
    }
  }

  /** The lifted container is read by its pivot handler. */
  lemma {:induction false} ContainerEntries(tags: string -> Option<string>, key: string, rules: PivotRules, names: seq<string>,
                                            entries: seq<Fields>)
    requires PivotKey(key, rules, names) && entries != [] && tags(key) == Some(rules.entry)
    requires forall j :: 0 <= j < |entries| ==> PivotReady(tags, rules, names, entries[j])
    ensures EncodeValue(tags, key, Arr(Objs(entries))).Ok?
    ensures LiftEntries(EncodeValue(tags, key, Arr(Objs(entries))).value, names).tag == key
    ensures ChildEntries(tags, LiftEntries(EncodeValue(tags, key, Arr(Objs(entries))).value, names))
         == Ok([(key, Arr(PivotedAll(entries, names)))])
  {
    PivotContainerRoundTrip(tags, rules, names, key, entries);
    var xs := Objs(entries);
    EncodeItemsPointwise(tags, rules.entry, xs, |xs|);
    var c := LiftEntries(EncodeValue(tags, key, Arr(xs)).value, names);
    assert |c.children| == |entries|;
    assert "AccessPaths"[0] != "Hosts"[0] && "Exceptions"[0] != "Hosts"[0] && "AccessPaths"[0] != "Exceptions"[0];
  }

  /** The policy element decodes to its dict, with the container's entries
      rebuilt. */
  lemma {:induction false} DecodePolicyElement(tags: string -> Option<string>, key: string, rules: PivotRules, names: seq<string>,
                                               ppre: Fields, entries: seq<Fields>, ppost: Fields)
    requires PivotKey(key, rules, names) && tags("HTTPBasedPolicy").None?
    requires PlainEach(tags, Reserved, ppre, |ppre|) && PlainEach(tags, Reserved, ppost, |ppost|)
    requires UniqueKeys(ppre + [(key, Arr(Objs(entries)))] + ppost)
    requires entries != [] && tags(key) == Some(rules.entry)
    requires forall j :: 0 <= j < |entries| ==> PivotReady(tags, rules, names, entries[j])
    ensures EncodeFields(tags, ppre, |ppre|).Ok? && EncodeFields(tags, ppost, |ppost|).Ok?
    ensures EncodeValue(tags, key, Arr(Objs(entries))).Ok?
    ensures var policy := Elem("HTTPBasedPolicy", None, map[],
                               EncodeFields(tags, ppre, |ppre|).value +
                               [LiftEntries(EncodeValue(tags, key, Arr(Objs(entries))).value, names)] +
                               EncodeFields(tags, ppost, |ppost|).value);
      ChildEntries(tags, policy) == Ok([("HTTPBasedPolicy", Obj(ppre + [(key, Arr(PivotedAll(entries, names)))] + ppost))])
  {
    HostTags();
    NoReservedEach(tags, Reserved, ppre, |ppre|, "Hosts");
    NoReservedEach(tags, Reserved, ppost, |ppost|, "Hosts");
    ContainerEntries(tags, key, rules, names, entries);
    var mid := [(key, Arr(PivotedAll(entries, names)))];
    SwapValue(ppre, key, Arr(Objs(entries)), Arr(PivotedAll(entries, names)), ppost);
    var c := LiftEntries(EncodeValue(tags, key, Arr(Objs(entries))).value, names);
    DecodeAround(tags, ppre, mid, ppost, c, "HTTPBasedPolicy");
    var policy := Elem("HTTPBasedPolicy", None, map[],
                       EncodeFields(tags, ppre, |ppre|).value + [c] + EncodeFields(tags, ppost, |ppost|).value);
    PolicyEntries(tags, policy);
  }

  /** The policy is neither a pivot container nor a list: it decodes as a
      dict under its own tag. */
  lemma {:induction false} PolicyEntries(tags: string -> Option<string>, policy: Elem)
    requires policy.tag == "HTTPBasedPolicy" && |policy.children| > 0 && tags("HTTPBasedPolicy").None?
    requires Decode(tags, policy).Ok?
    ensures ChildEntries(tags, policy) == Ok([("HTTPBasedPolicy", Decode(tags, policy).value)])
  {
    assert "HTTPBasedPolicy"[1] != "Hosts"[1] && "HTTPBasedPolicy"[0] != "AccessPaths"[0] && "HTTPBasedPolicy"[0] != "Exceptions"[0];
  }

  /** `xml_to_json` of the tree the pass leaves: both dicts in place, the
      container's entries as the handler rebuilds them. */
  lemma {:induction false} DecodePolicy(tags: string -> Option<string>, key: string, rules: PivotRules, names: seq<string>,
                                        pre: Fields, ppre: Fields, entries: seq<Fields>, ppost: Fields, post: Fields)
    requires PivotKey(key, rules, names) && tags("HTTPBasedPolicy").None?
    requires PolicyPlain(tags, pre, ppre, key, Objs(entries), ppost, post)
    requires entries != [] && tags(key) == Some(rules.entry)
    requires forall j :: 0 <= j < |entries| ==> PivotReady(tags, rules, names, entries[j])
    ensures EncodeFields(tags, pre, |pre|).Ok? && EncodeFields(tags, post, |post|).Ok?
    ensures EncodeFields(tags, ppre, |ppre|).Ok? && EncodeFields(tags, ppost, |ppost|).Ok?
    ensures EncodeValue(tags, key, Arr(Objs(entries))).Ok?
    ensures Decode(tags, PolicyTree(tags, pre, ppre, LiftEntries(EncodeValue(tags, key, Arr(Objs(entries))).value, names), ppost, post))
         == Ok(Obj(PolicyData(pre, ppre, key, PivotedAll(entries, names), ppost, post)))
  {
    HostTags();
    NoReservedEach(tags, Reserved, pre, |pre|, "Hosts");
    NoReservedEach(tags, Reserved, post, |post|, "Hosts");
    DecodePolicyElement(tags, key, rules, names, ppre, entries, ppost);
    var inner := ppre + [(key, Arr(PivotedAll(entries, names)))] + ppost;
    var c := LiftEntries(EncodeValue(tags, key, Arr(Objs(entries))).value, names);
    var policy := PolicyTree(tags, pre, ppre, c, ppost, post).children[|EncodeFields(tags, pre, |pre|).value|];
    SwapValue(pre, "HTTPBasedPolicy", Obj(ppre + [(key, Arr(Objs(entries)))] + ppost), Obj(inner), post);
    DecodeAround(tags, pre, [("HTTPBasedPolicy", Obj(inner))], post, policy, "FirewallRule");
  }

  /** `xml_to_json(json_to_xml("FirewallRule", data))` for a rule whose
      `HTTPBasedPolicy` holds a non-empty `AccessPaths` or `Exceptions` list
      between plain fields: the rule and the policy come back field for field
      in order, and the list comes back entry by entry, each entry the dict
      its handler rebuilds (the same fields, the lifted lists last). */
  lemma {:induction false} PolicyRoundTrip(tags: string -> Option<string>, key: string, rules: PivotRules, names: seq<string>,
                                           pre: Fields, ppre: Fields, entries: seq<Fields>, ppost: Fields, post: Fields)
    requires PivotKey(key, rules, names) && tags("HTTPBasedPolicy").None?
    requires PolicyPlain(tags, pre, ppre, key, Objs(entries), ppost, post)
    requires entries != [] && tags(key) == Some(rules.entry)
    requires forall j :: 0 <= j < |entries| ==> PivotReady(tags, rules, names, entries[j])
    ensures Encode(tags, "FirewallRule", PolicyData(pre, ppre, key, Objs(entries), ppost, post)).Ok?
    ensures Decode(tags, Encode(tags, "FirewallRule", PolicyData(pre, ppre, key, Objs(entries), ppost, post)).value)
         == Ok(Obj(PolicyData(pre, ppre, key, PivotedAll(entries, names), ppost, post)))
  {
    DecodePolicy(tags, key, rules, names, pre, ppre, entries, ppost, post);
    EncodePolicy(tags, key, rules, names, pre, ppre, Objs(entries), ppost, post);
  }
}
