# sophosapi XML ⇄ JSON converter, modelled in Dafny

sophosapi is a Python client for the XML API of Sophos firewalls. Its core is a
converter between the XML element trees that the appliance sends and receives
and nested JSON-like data (dicts, lists and strings). This project models that
converter.

- `xml_to_json` reads an element tree. A childless element becomes its text
  (or `""`). An element with children becomes a dict with one key per child,
  and a later child with the same tag overwrites an earlier one in place.
  Four cases are handled specially, each chosen by the child's tag:
  - `Hosts` is split into a `Hosts` list and a `DstHosts` list;
  - `AccessPaths` and `Exceptions` are "pivoted": the repeated children of
    each entry are gathered into list fields;
  - a tag in the vocabulary table becomes a list of decoded items.
- `json_to_xml` writes one element per key, in key order. A list becomes a
  container whose items are tagged as the vocabulary table says, and a key
  that is not in the table raises KeyError. The tree then goes through a
  post-pass chosen by the entity:
  - `SSLTLSInspectionRule`: `Identity/Member` below the root is renamed to
    `Members`;
  - `LocalServiceACL`: the `DstHosts` items are merged into `Hosts`;
  - `FirewallRule` with a non-empty `HTTPBasedPolicy`: the list containers
    of each access path and exception are lifted into the entry.
- `tags_of_lists` is the vocabulary table: container tag ↦ item tag.
- `_create_element` and `_make_filter` build the small elements of requests.

Both directions are written two ways:
- as recursive functions (`Decoding.Decode`, `Encoding.Encode`), which are
  the specification;
- as methods with the source's loops (`Decoding.XmlToJson`,
  `Encoding.JsonToXml` and their helpers), each proved to compute its
  function.

Elements and dicts are values. Python's in-place `extend`/`remove`/tag
assignment becomes building a new tree. A dict is a sequence of key/value
pairs with Python's semantics: insertion order, and one value per key.
Failures are values of `ConvError`:
- `UnknownContainer` is the KeyError of `tags_of_lists[tag]`;
- `AppendToText` is the AttributeError of appending to a str field in a
  pivot handler;
- `NotAChild` is the ValueError of `remove` on a `DstHosts` that is not a
  child of the root.

The vocabulary table is a parameter `tags: string -> Option<string>` of the
general functions. `XmlToJson`, `JsonToXml` and the `LibraryTable` lemmas
instantiate it with `TagsOfLists.ListItemTag`, the library's own table.

Files:
- `wrappers.dfy`: Option and Result.
- `xml.dfy`: elements, `find`/`findall`/`.//` lookups, `_create_element`,
  `Filter`, `_make_filter`.
- `json.dfy`: dict semantics.
- `tags_of_lists.dfy`: the table.
- `decode.dfy`, `decode_props.dfy`: `xml_to_json` and what it promises.
- `encode.dfy`, `encode_props.dfy`: `json_to_xml` and what it promises.
- `roundtrip.dfy`: decoding the encoding of plain data gives the data back.
- `reverse_roundtrip.dfy`: encoding the decoding of a canonical tree gives
  the tree back.
- `hosts_merge.dfy`: the `LocalServiceACL` merge and its round trip.
- `pivot_roundtrip.dfy`: the `FirewallRule` lift undoes the pivot handlers.
- `firewall_policy.dfy`: the `FirewallRule` round trip of a whole rule,
  through the nested `HTTPBasedPolicy` dict.
- `library_table.dfy`: the round trips instantiated with the library's
  table.

## Model

| member | source | states |
|---|---|---|
| Xml.CreateElement | sophosapi/api_factory.py:18-32 | the element has the given tag and text and no children; it has a `transactionid` attribute exactly when one is given, with that value, and no other attribute |
| Xml.Criteria | sophosapi/api_factory.py:12-15 | every filter comparison has a non-empty criteria string |
| Xml.CriteriaInjective | sophosapi/api_factory.py:12-15 | two comparisons share a criteria string exactly when they are the same comparison |
| Xml.MakeFilter | sophosapi/api_factory.py:35-49 | the result is a `Filter` element with no text and no attributes and exactly one child: a childless `key` whose text is the name and whose attributes are exactly `name="Name"` and `criteria` = the comparison's string |
| Xml.FindChild | sophosapi/api_factory.py:166-169 | `find("./tag")` returns the first child with that tag, and returns none exactly when no child has it |
| Xml.ChildrenTagged | sophosapi/api_factory.py:206 | `findall("./tag")` keeps only children with that tag, and keeps every one of them |
| Xml.ChildrenTaggedConcat | sophosapi/api_factory.py:206 | `findall` over two runs of children is the `findall` of each run, in order |
| Xml.FindDescendant | sophosapi/api_factory.py:152 | `find(".//tag")` returns a path to a proper descendant with that tag, and returns none exactly when there is no such descendant |
| Xml.FindDescendantAtChild | sophosapi/api_factory.py:152 | the first match in document order is child `k` when `k` has the tag and no earlier child has it or contains it |
| Xml.FindDescendantBelowChild | sophosapi/api_factory.py:152 | when the first child that contains the tag does not have it itself, the match lies strictly below that child |
| Xml.ExtendAt | sophosapi/api_factory.py:155 | `extend` on a descendant appends the items to that descendant's children and leaves the root's other children unchanged |
| JsonData.Lookup | sophosapi/api_factory.py:211 | `k in d` holds exactly when `k` is one of the dict's keys |
| JsonData.Assign | sophosapi/api_factory.py:84 | after `d[k] = v`, `d[k]` is `v` |
| JsonData.AssignOther | sophosapi/api_factory.py:84 | `d[k] = v` leaves every other key's value unchanged |
| JsonData.AssignKeys | sophosapi/api_factory.py:84 | `d[k] = v` keeps an existing key at its position and appends a new key at the end |
| JsonData.AssignUnique | sophosapi/api_factory.py:84 | assignment keeps the keys of a dict distinct |
| JsonData.AssignAllLookup | sophosapi/api_factory.py:64-84 | after a run of assignments, each key holds the last value assigned to it; a key never assigned keeps its old value |
| JsonData.AssignAllKeepsOrder | sophosapi/api_factory.py:64-84 | assignments never move or drop a key: the earlier keys stay at the front, in their order |
| JsonData.AssignAllFresh | sophosapi/api_factory.py:64-84 | assigning distinct new keys appends them in order |
| TagsOfLists.AccessPathsEntry | sophosapi/tags_of_lists.py:2 | the items of `AccessPaths` are tagged `AccessPath` |
| TagsOfLists.AccessPointsItem | sophosapi/tags_of_lists.py:3-4 | the active entry for `AccessPoints` is `AccessPoint`, not the commented-out `MeshNetwork` |
| TagsOfLists.AllowedNetworksItem | sophosapi/tags_of_lists.py:7 | the items of `allowed_networks` are tagged `allowed_networks` |
| TagsOfLists.BackendsItem | sophosapi/tags_of_lists.py:16 | the items of `backends` are tagged `backend` |
| TagsOfLists.CategoryListItem | sophosapi/tags_of_lists.py:21 | `CategoryList` holds `Category` items (the later duplicate key at line 130 gives the same value) |
| TagsOfLists.DeniedNetworksItem | sophosapi/tags_of_lists.py:28 | the items of `denied_networks` are tagged `denied_networks` |
| TagsOfLists.DomainListItem | sophosapi/tags_of_lists.py:32-34 | the active entry for `DomainList` is `DomainName` |
| TagsOfLists.DstHostsItem | sophosapi/tags_of_lists.py:36 | the items of `DstHosts` are tagged `DstHost` |
| TagsOfLists.ExceptionsEntry | sophosapi/tags_of_lists.py:42 | the items of `Exceptions` are tagged `Exception` |
| TagsOfLists.HostListItem | sophosapi/tags_of_lists.py:51 | the items of `HostList` are tagged `Host` |
| TagsOfLists.HostsItem | sophosapi/tags_of_lists.py:52 | the items of `Hosts` are tagged `Host` |
| TagsOfLists.IdentityItem | sophosapi/tags_of_lists.py:54-55 | `Identity` holds `Member` items, not the commented-out `Members` |
| TagsOfLists.PathsItem | sophosapi/tags_of_lists.py:79 | the items of `paths` are tagged `path` |
| TagsOfLists.SkipThreatsItem | sophosapi/tags_of_lists.py:111 | the items of `skip_threats_filter_categories` carry the same tag |
| TagsOfLists.SourcesItem | sophosapi/tags_of_lists.py:114 | the items of `sources` are tagged `source` |
| TagsOfLists.WebsitesItem | sophosapi/tags_of_lists.py:138 | the items of `Websites` are tagged `Activity` |
| TagsOfLists.PolicyNotAList | sophosapi/tags_of_lists.py:1-139 | `HTTPBasedPolicy` is not a key of the table, so its dict is written and read field by field |
| Decoding.ListFieldForBranch | sophosapi/api_factory.py:210-223 | a child tag maps to a list field exactly when the handler's if/elif chain has a branch for that tag, and the field is the one such a branch appends to |
| Decoding.XmlToJson | sophosapi/api_factory.py:55-86 | `xml_to_json` with the library's table computes `Decode` |
| Decoding.DecodeElement | sophosapi/api_factory.py:59-86 | the loop over the children computes `Decode` for any table, including the early return of the first failure |
| Decoding.DecodeChild | sophosapi/api_factory.py:65-84 | one turn of the loop makes the assignments `ChildEntries` lists, in the same order (`Hosts` before `DstHosts`) |
| Decoding.DecodeList | sophosapi/api_factory.py:78 | the list comprehension decodes every child in order (`DecodeItems`) |
| Decoding.HandleAccessPaths | sophosapi/api_factory.py:203-230 | the access-path handler computes `PivotList` with the access-path rules |
| Decoding.HandleExceptions | sophosapi/api_factory.py:233-260 | the exception handler computes `PivotList` with the exception rules |
| Decoding.HandlePivot | sophosapi/api_factory.py:205-230 | the outer loop yields one object per `findall` entry, in order, and stops at the first failure |
| Decoding.PivotObject | sophosapi/api_factory.py:207-226 | the inner loop computes `PivotEntry` for one entry |
| Decoding.PivotChild | sophosapi/api_factory.py:209-226 | one child either appends its text to its list field, creating the list when the field is absent and failing when the field holds a str, or stores its text or `""` under its own tag |
| DecodeProperties.LastScalarTextIsLast | sophosapi/api_factory.py:225-226 | the str a field ends with is the text (or `""`) of a child stored under it that no later child overwrites |
| DecodeProperties.PivotEntryFields | sophosapi/api_factory.py:209-226 | at every point of the loop, once some child stored a str under a field, the field holds the text (or `""`) of the last such child; otherwise it holds a list of exactly the texts its list children appended, in document order, and is absent when there are none |
| DecodeProperties.PivotStepKeys | sophosapi/api_factory.py:209-226 | one child adds the field it writes at the end of the dict when the field is new, and otherwise leaves the keys in place |
| DecodeProperties.PivotEntryKeys | sophosapi/api_factory.py:207-226 | the keys of a pivoted entry are the fields its children write, without repeats, each at the position of the first child that wrote it |
| DecodeProperties.PivotEntryFails | sophosapi/api_factory.py:209-226 | pivoting an entry fails exactly when a list child comes after a child that stored a str under that list's field (say `<backends>` before `<backend>`) |
| DecodeProperties.StepFailsIffScalar | sophosapi/api_factory.py:211-213 | an append fails exactly when an earlier child stored a str under that field |
| DecodeProperties.PivotEntriesItems | sophosapi/api_factory.py:205-230 | a pivot container succeeds exactly when every entry does, and then yields one object per entry, in order |
| DecodeProperties.ChildEntriesKeys | sophosapi/api_factory.py:65-84 | a child sets exactly the key of its tag, or both `Hosts` and `DstHosts` for a `Hosts` with children |
| DecodeProperties.DecodeFieldsKeys | sophosapi/api_factory.py:59-86 | the decoded dict has distinct keys, and they are exactly the keys the children set |
| DecodeProperties.DecodeFieldsKeepOrder | sophosapi/api_factory.py:64-84 | a key keeps the position at which the first child set it; later children only add keys after it |
| DecodeProperties.DecodeFieldsLastWins | sophosapi/api_factory.py:64-84 | the last child that sets a key decides its value |
| DecodeProperties.DecodedField | sophosapi/api_factory.py:64-84 | when no later child sets the key of child `c`, the dict holds the decoded `c`: its text or `""` when childless, the pivoted list for `AccessPaths`/`Exceptions`, one decoded item per child for a table container, and the recursive decoding otherwise |
| DecodeProperties.DecodedHosts | sophosapi/api_factory.py:67-69 | a `Hosts` child with children gives the texts of its `Host` children under `Hosts` and those of its `DstHost` children under `DstHosts` |
| DecodeProperties.DecodeShape | sophosapi/api_factory.py:59-86 | a childless element decodes to its text or `""`; an element with children decodes to a dict with distinct keys |
| DecodeProperties.DecodeItemsPointwise | sophosapi/api_factory.py:78 | a list container succeeds exactly when every child decodes, and then item `j` is the decoding of child `j`, whatever the child's tag |
| DecodeProperties.DecodeIgnoresRoot | sophosapi/api_factory.py:59-86 | an element with children decodes the same whatever its own tag and text |
| DecodeProperties.DecodeErrorKind | sophosapi/api_factory.py:55-86 | the only way `xml_to_json` fails is the AttributeError of a pivot append |
| Encoding.EncodeValue | sophosapi/api_factory.py:115-136 | the element built for `key: v` is tagged `key` and has no attributes |
| Encoding.EncodeItem | sophosapi/api_factory.py:128-135 | a list item is tagged with the table's item tag and has no attributes |
| Encoding.FindGrandchild | sophosapi/api_factory.py:163 | `find("./HTTPBasedPolicy/<c>")` returns indices of a `c` child of a `HTTPBasedPolicy` child |
| Encoding.FindGrandchildFirst | sophosapi/api_factory.py:163 | the match found is the first in document order: the first `c` of its `HTTPBasedPolicy`, and no earlier `HTTPBasedPolicy` has a `c` |
| Encoding.FindGrandchildNone | sophosapi/api_factory.py:163 | nothing is found exactly when no `HTTPBasedPolicy` child has a `c` child |
| Encoding.JsonToXml | sophosapi/api_factory.py:89-105 | `json_to_xml` with the library's table computes `Encode` |
| Encoding.BuildElements | sophosapi/api_factory.py:108-138 | the loop of `_json_to_xml` computes `EncodeFields`, including the KeyError of a list under an unknown key |
| Encoding.BuildItems | sophosapi/api_factory.py:126-136 | the inner loop computes `EncodeItems` |
| Encoding.HandleFirewallRule | sophosapi/api_factory.py:161-199 | the pass computes `LiftPivots` |
| Encoding.LiftEach | sophosapi/api_factory.py:165-179 | the loop over the entries lifts the named containers of every entry, in the order of the names |
| EncodeProperties.EncodeFieldsPointwise | sophosapi/api_factory.py:115-138 | `_json_to_xml` succeeds exactly when every field encodes, and then gives one element per key, in key order |
| EncodeProperties.EncodeItemsPointwise | sophosapi/api_factory.py:128-136 | a list encodes exactly when every item does, and then gives one item element per entry, in order |
| EncodeProperties.EncodeFieldsConcat | sophosapi/api_factory.py:115-138 | the elements of two runs of fields are the elements of each run, concatenated |
| EncodeProperties.TextItems | sophosapi/api_factory.py:128-135 | a list of strs encodes to one childless item per str, with that str as its text |
| EncodeProperties.EncodeValueFails | sophosapi/api_factory.py:125-127 | encoding a value succeeds exactly when every list in it, at any depth, sits under a table key; a failure is always that KeyError |
| EncodeProperties.EncodeFieldsFails | sophosapi/api_factory.py:108-138 | the same for a whole dict |
| EncodeProperties.EncodeItemsFails | sophosapi/api_factory.py:128-136 | the same for the items of a list |
| EncodeProperties.EncodeRoot | sophosapi/api_factory.py:89-105 | the tree is rooted at an element tagged with the entity; outside the three special entities its children are exactly the elements of the fields |
| EncodeProperties.RenameIdentityMembersIdempotent | sophosapi/api_factory.py:142-147 | the `Identity/Member` rename is idempotent |
| EncodeProperties.RenameEncodedFields | sophosapi/api_factory.py:142-147 | for data where `Identity` only holds a list, renaming after encoding equals encoding with the commented-out table variant `Identity: Members` |
| HostsMerge.MergeIntoHosts | sophosapi/api_factory.py:150-158 | when the first `Hosts` is a child of the root with children and the first `DstHosts` is a later child of the root (any children between them), the `DstHost` items are appended to `Hosts`, `DstHosts` is removed and every other child keeps its place |
| HostsMerge.MergeEmptyHosts | sophosapi/api_factory.py:154-156 | a childless `Hosts` is falsy: the items go to a detached element and are lost, and `DstHosts` is still removed |
| HostsMerge.MergeNoHosts | sophosapi/api_factory.py:154-156 | with no `Hosts` anywhere, `DstHosts` is removed and its items are lost |
| HostsMerge.MergeNested | sophosapi/api_factory.py:152-156 | when the first `DstHosts` is not a child of the root, `remove` raises ValueError |
| HostsMerge.EncodeHosts | sophosapi/api_factory.py:150-158 | for `LocalServiceACL` data with `Hosts` then `DstHosts`, the tree holds one `Hosts` element with the `Host` items followed by the `DstHost` items |
| HostsMerge.SplitHosts | sophosapi/api_factory.py:67-69 | decoding that merged `Hosts` gives back the `Hosts` list and the `DstHosts` list |
| HostsMerge.RoundTripHosts | sophosapi/api_factory.py:150-158 | `xml_to_json(json_to_xml("LocalServiceACL", d)) == d` for such data: the merge and the split undo each other |
| HostsMerge.DropDstHosts | sophosapi/api_factory.py:150-158 | `DstHosts` data without `Hosts` data encodes to the same tree as the data without `DstHosts` |
| HostsMerge.DropAfterEmptyHosts | sophosapi/api_factory.py:150-158 | `DstHosts` data after an empty `Hosts` list is lost |
| PivotLift.LiftAllShape | sophosapi/api_factory.py:165-179 | after the lift, an entry holds its other children in their order, then the items of each container in the order the pass visits the containers |
| PivotRoundTrip.PivotEntryAll | sophosapi/api_factory.py:209-226 | the handler reads an entry's children in document order |
| PivotRoundTrip.PivotedSameDict | sophosapi/api_factory.py:209-226 | the rebuilt entry maps every key to the value the original entry has for it |
| PivotRoundTrip.PivotEntryRoundTrip | sophosapi/api_factory.py:203-230 | an entry of str fields and non-empty str lists, encoded and lifted, decodes to the same dict with the lifted lists moved last |
| PivotRoundTrip.PivotContainerRoundTrip | sophosapi/api_factory.py:203-230 | the same for a whole `AccessPaths`/`Exceptions` list: one rebuilt entry per entry, in order |
| RoundTrip.RoundTripValue | sophosapi/api_factory.py:115-136 | one plain field, encoded, is decoded back to the single assignment `key: v` |
| RoundTrip.RoundTripItems | sophosapi/api_factory.py:128-135 | each plain list item decodes back to itself, whatever its item tag |
| RoundTrip.RoundTripFields | sophosapi/api_factory.py:108-138 | a plain dict, encoded as the children of any element, decodes back to itself |
| RoundTripEntities.NoReservedValue | sophosapi/api_factory.py:108-138 | nothing encoded from plain data has a tag that a post-pass or the decoder looks for, at any depth |
| RoundTripTheorems.MergeWithoutDstHosts | sophosapi/api_factory.py:150-158 | the `LocalServiceACL` pass leaves a tree without `DstHosts` unchanged |
| RoundTripTheorems.LiftWithoutPivots | sophosapi/api_factory.py:161-199 | the `FirewallRule` pass leaves a tree without `AccessPaths` and `Exceptions` unchanged |
| RoundTripTheorems.EncodePlain | sophosapi/api_factory.py:89-105 | for plain data and any entity other than `SSLTLSInspectionRule`, `json_to_xml` is the root over the field elements |
| RoundTripTheorems.RoundTripPlain | sophosapi/api_factory.py:89-105 | `xml_to_json(json_to_xml(entity, d)) == d` for plain data |
| RoundTripTheorems.RoundTripRenamed | sophosapi/api_factory.py:142-147 | the same for `SSLTLSInspectionRule` when `Identity` only holds a list |
| RoundTripTheorems.RoundTripEntity | sophosapi/api_factory.py:89-105 | the round trip for any entity, on plain data |
| ReverseRoundTrip.ReverseItem | sophosapi/api_factory.py:128-135 | a canonical list item decodes to a str or a plain dict that encodes back to the same item |
| ReverseRoundTrip.ReverseItems | sophosapi/api_factory.py:126-136 | the items of a canonical list container decode to a plain list that encodes back to the same items, in order |
| ReverseRoundTrip.ReverseChild | sophosapi/api_factory.py:115-136 | a canonical child makes one assignment, under its own tag, of a plain value that `_json_to_xml` turns back into the same child |
| ReverseRoundTrip.ReverseFields | sophosapi/api_factory.py:64-84 | canonical sibling fields decode to a dict keyed by their tags in document order, whose elements are those siblings again |
| ReverseRoundTrip.ReverseNode | sophosapi/api_factory.py:108-138 | an element whose children are canonical fields decodes to a plain dict, and `_json_to_xml` of that dict gives back exactly those children |
| ReverseRoundTrip.ReverseRoundTripEntity | sophosapi/api_factory.py:89-105 | `json_to_xml(entity, xml_to_json(e))` is `e`'s children under a root named `entity`, for canonical `e` and every entity other than `SSLTLSInspectionRule` |
| ReverseRoundTrip.ReverseRoundTripRenamed | sophosapi/api_factory.py:142-147 | for `SSLTLSInspectionRule` the same tree comes back with its `Identity/Member` items renamed `Members` |
| FirewallPolicy.FindGrandchildAt | sophosapi/api_factory.py:163 | `find("./HTTPBasedPolicy/<container>")` returns the first `<container>` child of the first `HTTPBasedPolicy` child of the root when no earlier child is an `HTTPBasedPolicy` |
| FirewallPolicy.LiftContainerAt | sophosapi/api_factory.py:163-179 | when the root's one `HTTPBasedPolicy` child holds the container, the pass replaces that container by its lifted version and leaves every other child of the root and of the policy in place |
| FirewallPolicy.LiftContainerNone | sophosapi/api_factory.py:181-182 | when no `HTTPBasedPolicy` child of the root holds the container, that branch of the pass changes nothing |
| FirewallPolicy.PolicyFound | sophosapi/api_factory.py:102 | `find("./HTTPBasedPolicy")` is truthy when the first such child of the root has children, so the pass runs |
| FirewallPolicy.LiftPivotsAt | sophosapi/api_factory.py:160-199 | on a root whose one policy holds one pivot container and not the other, the pass runs and lifts the entries of that container only |
| FirewallPolicy.EncodePolicy | sophosapi/api_factory.py:89-105 | `json_to_xml("FirewallRule", d)` of a rule whose policy dict holds an `AccessPaths` or `Exceptions` list is the elements of the fields in key order, with the policy's container lifted entry by entry |
| FirewallPolicy.ContainerEntries | sophosapi/api_factory.py:71-75 | the lifted container decodes, by the handler its tag selects, to one list of the rebuilt entries |
| FirewallPolicy.PolicyEntries | sophosapi/api_factory.py:80-81 | an `HTTPBasedPolicy` element with children is neither special nor a list: it assigns its decoded dict under its own tag |
| FirewallPolicy.DecodePolicyElement | sophosapi/api_factory.py:64-86 | the lifted policy element decodes to the policy dict, key for key in order, with the container's entries rebuilt |
| FirewallPolicy.DecodePolicy | sophosapi/api_factory.py:55-86 | `xml_to_json` of the lifted rule gives the rule dict, key for key in order, with the nested policy dict in place |
| FirewallPolicy.PolicyRoundTrip | sophosapi/api_factory.py:55-105 | `xml_to_json(json_to_xml("FirewallRule", d))` is `d` with each entry of the policy's `AccessPaths` or `Exceptions` list replaced by the dict its handler rebuilds (same fields, lifted lists last), for every table that gives the container its entry tag and does not list `HTTPBasedPolicy` |
| LibraryTable.AccessPathKeys | sophosapi/api_factory.py:166-179 | the containers lifted from an access path are distinct, and the library's table maps each to the item tag of the handler branch that reads it back |
| LibraryTable.ExceptionKeys | sophosapi/api_factory.py:184-197 | the same for the containers of an exception |
| LibraryTable.AccessPathsRoundTrip | sophosapi/api_factory.py:161-179 | with the library's table, a list of access paths, encoded and lifted, decodes back entry by entry (the dicts are equal, the lists come last) |
| LibraryTable.ExceptionsRoundTrip | sophosapi/api_factory.py:181-197 | the same for exceptions |
| LibraryTable.FirewallAccessPathsRoundTrip | sophosapi/api_factory.py:55-105 | with the library's table, a `FirewallRule` whose `HTTPBasedPolicy` holds a non-empty list of access paths between plain fields comes back with both dicts in place and each access path rebuilt by its handler |
| LibraryTable.FirewallExceptionsRoundTrip | sophosapi/api_factory.py:55-105 | the same for a policy holding a list of exceptions |
| LibraryTable.HostsRoundTrip | sophosapi/api_factory.py:150-158 | with the library's table, `LocalServiceACL` data with a non-empty `Hosts` list immediately followed by a `DstHosts` list comes back unchanged (otherwise `DropAfterEmptyHosts` and `DropDstHosts` show the items lost) |

## Left out

- Parsing and serialising XML text is not modelled. Trees are values; whitespace, namespaces, `tail` text and attribute order are not represented.
- The HTTP client, the request and response envelopes, login and the entity-specific API calls are not part of this model. They are I/O around the converter.
- In-place mutation and aliasing of ElementTree nodes are modelled on values. `extend` onto a detached `Element("Hosts")` becomes "the items are dropped", because nothing can observe that element afterwards.
- The vocabulary table is written as three consecutive `match` blocks over disjoint key ranges, not one literal. `ListItemTag` looks them up in turn. The duplicate `CategoryList` key has the same value both times, so the later entry is shown only as a comment.
- `xml_to_json` and `json_to_xml` are generic over the table and are instantiated with the library's table. Properties that do not depend on the table's contents are proved for every table.
- The test helper `element_equality` and the test fixtures are not modelled. The round trips compare values exactly.
- PivotRoundTrip.PivotEntryRoundTrip: equality is dict equality (every key has the same value); the key order is not restored, because the lifted lists move last. Only entries whose lifted fields are non-empty lists of strs are covered. An empty list lifts to nothing, and a str in a lifted field would not round-trip.
- FirewallPolicy.PolicyRoundTrip: covers a policy that holds one pivot container, `AccessPaths` or `Exceptions`, with plain fields around it and around the policy. A policy holding both containers is not covered. An empty container list is not covered either, because it decodes as `""`.
- RoundTripTheorems.RoundTripEntity: covers "plain" data only. Plain data has no key that the decoder treats specially, no `None`, no empty list, and list items that are strs or dicts. Outside that data the two directions do not invert each other: `None` comes back as `""`, an empty dict or list as `""`, and a list of lists loses its inner lists.
- ReverseRoundTrip.ReverseRoundTripEntity: covers "canonical" trees only. A canonical tree has no attributes; every childless element has text and no element with children has text; siblings have distinct tags except the items of a table container, which all carry the table's item tag; and no tag is `Hosts`, `DstHosts`, `AccessPaths` or `Exceptions`. Outside such trees the two directions do not invert each other: attributes are dropped, repeated siblings collapse to the last one, a missing text comes back as `""`, items come back with the table's tag, and the special tags are reshaped by the decoder or the post-passes.
- Decoding.DecodeChild: special cases are chosen by the child's tag alone, whatever the parent entity. The code does this; a description of the library that ties them to the parent entity is not followed.
- Decoding.TextItem: list items of `Hosts`/`DstHosts` and of pivot list fields keep `None` for an element without text. The code does not apply `or ""` there, and the model follows the code.
- Encoding.EncodeItem: a list item that is neither a str nor a dict becomes an empty element, and a nested list is silently dropped. This is what the code does.

