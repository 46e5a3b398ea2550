/** The round trips instantiated with the library's own vocabulary table:
    the two pivot containers of an HTTP-based firewall policy, alone and
    inside a whole firewall rule, and the host lists of a local service ACL. */
module LibraryTable {
  import opened Wrappers
  import opened Xml
  import opened JsonData
  import opened Decoding
  import opened Encoding
  import opened TagsOfLists
  import opened PivotLift
  import opened PivotRoundTrip
  import opened RoundTrip
  import opened RoundTripEntities
  import opened EncodeProperties
  import opened HostsMerge
  import opened FirewallPolicy

  /** The lists lifted out of an access path are distinct, and the table
      gives each an item tag that the access-path rules collect back into
      that very list. */
  lemma AccessPathKeys()
    ensures Distinct(AccessPathContainers)
    ensures forall k :: k in AccessPathContainers ==> ListKey(ListItemTag, AccessPathRules, AccessPathContainers, k)
  {
    BackendsItem();
    AllowedNetworksItem();
    DeniedNetworksItem();
  }

  /** The same for the lists lifted out of an exception. */
  lemma ExceptionKeys()
    ensures Distinct(ExceptionContainers)
    ensures forall k :: k in ExceptionContainers ==> ListKey(ListItemTag, ExceptionRules, ExceptionContainers, k)
  {
    PathsItem();
    SourcesItem();
    SkipThreatsItem();
  }

  /** Every entry is a dict of string fields and non-empty string lists in
      the places the lifted containers name. */
  predicate EntriesShaped(rules: PivotRules, names: seq<string>, entries: seq<Fields>) {
    forall j :: 0 <= j < |entries| ==>
      UniqueKeys(entries[j]) &&
      forall i :: 0 <= i < |entries[j]| ==> FieldShape(rules, names, entries[j][i].0, entries[j][i].1)
  }

  lemma {:induction false} ShapedReady(rules: PivotRules, names: seq<string>, entries: seq<Fields>)
    requires EntriesShaped(rules, names, entries)
    requires Distinct(names)
    requires forall k :: k in names ==> ListKey(ListItemTag, rules, names, k)
    ensures forall j :: 0 <= j < |entries| ==> PivotReady(ListItemTag, rules, names, entries[j])
  {
    forall j | 0 <= j < |entries|
      ensures PivotReady(ListItemTag, rules, names, entries[j])
    {
      var fs := entries[j];
      forall i | 0 <= i < |fs|
        ensures PivotField(ListItemTag, rules, names, fs[i].0, fs[i].1)
      {
      }
    }
  }

  /** `AccessPaths` under the library's table: the list of access paths a
      caller supplies, written to XML, lifted, and read back by the
      access-path handler, comes back entry by entry with the same fields,
      the lists moved last. */
  lemma {:induction false} AccessPathsRoundTrip(entries: seq<Fields>)
    requires EntriesShaped(AccessPathRules, AccessPathContainers, entries)
    ensures EncodeValue(ListItemTag, "AccessPaths", Arr(Objs(entries))).Ok?
    ensures PivotList(LiftEntries(EncodeValue(ListItemTag, "AccessPaths", Arr(Objs(entries))).value,
                                  AccessPathContainers), AccessPathRules)
         == Ok(PivotedAll(entries, AccessPathContainers))
  {
    AccessPathsEntry();
    AccessPathKeys();
    ShapedReady(AccessPathRules, AccessPathContainers, entries);
    PivotContainerRoundTrip(ListItemTag, AccessPathRules, AccessPathContainers, "AccessPaths", entries);
  }

  /** `Exceptions` under the library's table, likewise. */
  lemma {:induction false} ExceptionsRoundTrip(entries: seq<Fields>)
    requires EntriesShaped(ExceptionRules, ExceptionContainers, entries)
    ensures EncodeValue(ListItemTag, "Exceptions", Arr(Objs(entries))).Ok?
    ensures PivotList(LiftEntries(EncodeValue(ListItemTag, "Exceptions", Arr(Objs(entries))).value,
                                  ExceptionContainers), ExceptionRules)
         == Ok(PivotedAll(entries, ExceptionContainers))
  {
    ExceptionsEntry();
    ExceptionKeys();
    ShapedReady(ExceptionRules, ExceptionContainers, entries);
    PivotContainerRoundTrip(ListItemTag, ExceptionRules, ExceptionContainers, "Exceptions", entries);
  }

  /** `LocalServiceACL` under the library's table: a dict with a non-empty
      `Hosts` list and a `DstHosts` list between plain fields is written to
      XML, has its `DstHost` items moved into `Hosts`, and is read back as
      the same dict. */
  lemma {:induction false} HostsRoundTrip(pre: Fields, hs: seq<Json>, ds: seq<Json>, post: Fields)
    requires PlainEach(ListItemTag, Reserved, pre, |pre|) && PlainEach(ListItemTag, Reserved, post, |post|)
    requires hs != [] && AllStr(hs) && AllStr(ds) && UniqueKeys(HostsData(pre, hs, ds, post))
    ensures Encode(ListItemTag, "LocalServiceACL", HostsData(pre, hs, ds, post)).Ok?
    ensures Decode(ListItemTag, Encode(ListItemTag, "LocalServiceACL", HostsData(pre, hs, ds, post)).value)
         == Ok(Obj(HostsData(pre, hs, ds, post)))
  {
    HostsItem();
    DstHostsItem();
    RoundTripHosts(ListItemTag, pre, hs, ds, post);
  }

  /** `FirewallRule` under the library's table, end to end: a rule whose
      `HTTPBasedPolicy` dict holds a non-empty list of access paths between
      plain fields is written to XML, lifted and read back with both dicts
      in place, field for field, and each access path rebuilt by its handler. */
  lemma {:induction false} FirewallAccessPathsRoundTrip(pre: Fields, ppre: Fields, entries: seq<Fields>, ppost: Fields, post: Fields)
    requires PolicyPlain(ListItemTag, pre, ppre, "AccessPaths", Objs(entries), ppost, post)
    requires entries != [] && EntriesShaped(AccessPathRules, AccessPathContainers, entries)
    ensures Encode(ListItemTag, "FirewallRule", PolicyData(pre, ppre, "AccessPaths", Objs(entries), ppost, post)).Ok?
    ensures Decode(ListItemTag, Encode(ListItemTag, "FirewallRule", PolicyData(pre, ppre, "AccessPaths", Objs(entries), ppost, post)).value)
         == Ok(Obj(PolicyData(pre, ppre, "AccessPaths", PivotedAll(entries, AccessPathContainers), ppost, post)))
  {
    AccessPathsEntry();
    AccessPathKeys();
    PolicyNotAList();
    ShapedReady(AccessPathRules, AccessPathContainers, entries);
    PolicyRoundTrip(ListItemTag, "AccessPaths", AccessPathRules, AccessPathContainers, pre, ppre, entries, ppost, post);
  }

  /** The same for a rule whose policy holds a list of exceptions. */
  lemma {:induction false} FirewallExceptionsRoundTrip(pre: Fields, ppre: Fields, entries: seq<Fields>, ppost: Fields, post: Fields)
    requires PolicyPlain(ListItemTag, pre, ppre, "Exceptions", Objs(entries), ppost, post)
    requires entries != [] && EntriesShaped(ExceptionRules, ExceptionContainers, entries)
    ensures Encode(ListItemTag, "FirewallRule", PolicyData(pre, ppre, "Exceptions", Objs(entries), ppost, post)).Ok?
    ensures Decode(ListItemTag, Encode(ListItemTag, "FirewallRule", PolicyData(pre, ppre, "Exceptions", Objs(entries), ppost, post)).value)
         == Ok(Obj(PolicyData(pre, ppre, "Exceptions", PivotedAll(entries, ExceptionContainers), ppost, post)))
  {
    ExceptionsEntry();
    ExceptionKeys();
    PolicyNotAList();
    ShapedReady(ExceptionRules, ExceptionContainers, entries);
    PolicyRoundTrip(ListItemTag, "Exceptions", ExceptionRules, ExceptionContainers, pre, ppre, entries, ppost, post);
  }
}
