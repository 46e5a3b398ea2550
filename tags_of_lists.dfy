/** The vocabulary table: which container tags hold lists, and the tag of
    each item inside them. */
module TagsOfLists {
  import opened Wrappers

  /** `tags_of_lists.get(container)`: the tag of the items of a list
      container, or None when the tag is not a list container. The dict
      literal is written below as three consecutive blocks (keys from A to E,
      from F to O, from P to W); no key appears in two blocks, so looking
      the blocks up one after the other finds the literal's one entry for a
      key. */
  function ListItemTag(container: string): Option<string> {
    if ListItemTagAToE(container).Some? then ListItemTagAToE(container)
    else if ListItemTagFToO(container).Some? then ListItemTagFToO(container)
    else ListItemTagPToW(container)
  }

  /** The entries of the literal from `AccessPaths` to `Exceptions`, in the
      literal's order; commented-out alternatives of the literal are noted
      where they stand. */
  function ListItemTagAToE(container: string): Option<string> {
    match container
      case "AccessPaths" => Some("AccessPath")
      case "AccessPoints" => Some("AccessPoint")
      // inactive alternative: "AccessPoints" => "MeshNetwork"
      case "AddressList" => Some("Address")
      case "AdminAccessNodeList" => Some("IPAddress")
      case "allowed_networks" => Some("allowed_networks")
      case "AllowedNetworks" => Some("Network")
      case "AllowedUser" => Some("User")
      case "AllowedUsers" => Some("User")
      case "AllowedZone" => Some("Zone")
      case "ApplicationList" => Some("Application")
      case "ApplicationObjects" => Some("ApplicationObject")
      case "Assets" => Some("Asset")
      case "AuthenticationServerList" => Some("AuthenticationServer")
      case "backends" => Some("backend")
      case "BlockedEmailAddresses" => Some("EmailAddress")
      case "BlockFileTypes" => Some("FileType")
      case "BookmarkList" => Some("Bookmark")
      case "BridgeMembers" => Some("Member")
      case "CategoryList" => Some("Category")
      case "CCLList" => Some("CCL")
      case "CharacteristicsList" => Some("Characteristics")
      case "ClassificationList" => Some("Classification")
      case "ContentList" => Some("ContentString")
      case "CountryList" => Some("Country")
      case "CustomNTPServer" => Some("NTPServer")
      case "denied_networks" => Some("denied_networks")
      case "DestinationInterfaceList" => Some("DestinationInterface")
      case "DestinationNetworks" => Some("Network")
      case "DestinationZones" => Some("Zone")
      // inactive alternative: "DomainList" => "Domain"
      case "DomainList" => Some("DomainName")
      // inactive alternative: "DomainList" => ??
      case "Domains" => Some("Domain")
      case "DstHosts" => Some("DstHost")
      case "EmailList" => Some("EmailID")
      case "EnableOnZone" => Some("Zone")
      case "EntryURLList" => Some("EntryURL")
      case "EtherTypeList" => Some("EtherType")
      case "ExceptionNetworks" => Some("Network")
      case "Exceptions" => Some("Exception")
      case _ => None
  }

  /** The entries from `FailoverCondition` to `OutboundInterfaces`. */
  function ListItemTagFToO(container: string): Option<string> {
    match container
      case "FailoverCondition" => Some("FailoverIF")
      case "FileExtensionList" => Some("FileExtension")
      case "FQDNHostGroupList" => Some("FQDNHostGroup")
      case "FQDNHostList" => Some("FQDNHost")
      case "Gateways" => Some("Gateway")
      case "GroupIP" => Some("IPAddress")
      case "HostException" => Some("Host")
      case "HostGroupList" => Some("HostGroup")
      case "HostList" => Some("Host")
      case "Hosts" => Some("Host")
      case "HostsOrNetworks" => Some("HostsOrNetwork")
      case "Identity" => Some("Member")
      // inactive alternative: "Identity" => "Members"
      case "InboundInterfaces" => Some("Interface")
      case "InitializationStrings" => Some("String")
      case "InterfaceList" => Some("Interface")
      case "InterfaceNATPolicyList" => Some("Override")
      case "Interfaces" => Some("Interface")
      case "IPLease" => Some("IP")
      case "KeywordList" => Some("Keyword")
      case "LocalNetworks" => Some("Network")
      case "MACAddressList" => Some("MACAddress")
      case "MemberConnections" => Some("Connection")
      case "MemberInterface" => Some("Interface")
      case "MeshNetwoks" => Some("MeshNetwok")
      case "MIMEHeaderList" => Some("MIMEHeader")
      case "MIMEWhiteList" => Some("WhiteList")
      case "MonitoringCondition" => Some("Rule")
      case "MonitorPorts" => Some("Interface")
      case "NetworkExceptions" => Some("Host")
      case "Networks" => Some("Network")
      case "NodeList" => Some("IPAddress")
      case "OriginalDestinationNetworks" => Some("Network")
      case "OriginalServices" => Some("Service")
      case "OriginalSourceNetworks" => Some("Network")
      case "OutboundInterfaces" => Some("Interface")
      case _ => None
  }

  /** The entries from `paths` to `Websites`. */
  function ListItemTagPToW(container: string): Option<string> {
    match container
      case "paths" => Some("path")
      case "PeerAdministrationList" => Some("PeerConfiguration")
      case "PermittedNetworkResourcesIPv4" => Some("Resource")
      case "PermittedNetworkResourcesIPv6" => Some("Resource")
      case "PlatformList" => Some("Platform")
      case "PolicyMembers" => Some("Member")
      case "PrefixAdvertisementConfiguration" => Some("PrefixAdvertisementConfiguration")
      case "PUAWhitelist" => Some("PUA")
      case "RBLList" => Some("RBLName")
      case "ReceiverList" => Some("Receiver")
      case "RecipientAddresses" => Some("Address")
      case "RecipientHeaders" => Some("Header")
      case "RefferredDomains" => Some("Domains")
      case "RemoteLANNetwork" => Some("Network")
      case "RemoteNetworks" => Some("Network")
      case "RequestParamterList" => Some("RequestParamter")
      case "ResponseParamterList" => Some("RequestParamter")
      case "RiskList" => Some("Risk")
      case "RouteList" => Some("HostName")
      case "RuleList" => Some("Rule")
      case "Rules" => Some("Rule")
      case "SchedulebasedPolicyRuleList" => Some("Rule")
      case "ScheduleDetails" => Some("ScheduleDetail")
      case "SearchQueries" => Some("Query")
      case "SecurityPolicyList" => Some("SecurityPolicy")
      case "SenderAddressesList" => Some("Address")
      case "SenderList" => Some("Sender")
      case "ServiceList" => Some("Service")
      case "Services" => Some("Service")
      case "ServiceDetails" => Some("ServiceDetail")
      case "SeverityList" => Some("Severity")
      case "Signatures" => Some("Signature")
      case "skip_threats_filter_categories" => Some("skip_threats_filter_categories")
      case "SkipFilterRules" => Some("FilterRules")
      case "SmarthostList" => Some("Hostname")
      case "sources" => Some("source")
      case "SourceHostList" => Some("SourceHost")
      case "SourceNetworks" => Some("Network")
      case "SourceZones" => Some("Zone")
      case "SSLVPNAuthenticationServerList" => Some("AuthenticationServer")
      case "SSORadiusAccount" => Some("Radius")
      case "StaticLease" => Some("Lease")
      case "SupportedDHGroups" => Some("DHGroup")
      case "TargetList" => Some("Target")
      case "TargetServers" => Some("Host")
      case "TechnologyList" => Some("Technology")
      case "ThreatException" => Some("Threat")
      case "ThreatFilters" => Some("Filter")
      case "TrustedPorts" => Some("Port")
      case "UserList" => Some("User")
      case "Users" => Some("User")
      // "CategoryList" appears a second time at line 130, with the same value "Category"
      case "UserGroupList" => Some("UserGroup")
      case "UsersOrGroups" => Some("UsersOrGroup")
      case "URLList" => Some("URL")
      case "Vouchers" => Some("Voucher")
      case "VPNAuthenticationMethods" => Some("VPNAuthenticationServerList")
      case "WalledGarden" => Some("AllowedNetworks")
      case "WirelessNetworks" => Some("Network")
      case "Websites" => Some("Activity")
      case _ => None
  }

  /** `container in tags_of_lists`. */
  predicate IsListContainer(container: string) {
    ListItemTag(container).Some?
  }

  // Lookups of the keys the pivot handlers rely on. A key of a later block
  // is shown absent from the earlier blocks and present in its own, each by
  // a lemma of its own.

  lemma AccessPathsEntry()
    ensures ListItemTag("AccessPaths") == Some("AccessPath")
  {
  }

  lemma ExceptionsEntry()
    ensures ListItemTag("Exceptions") == Some("Exception")
  {
    ExceptionsInAToE();
  }

  lemma ExceptionsInAToE()
    ensures ListItemTagAToE("Exceptions") == Some("Exception")
  {
  }

  lemma BackendsItem()
    ensures ListItemTag("backends") == Some("backend")
  {
  }

  lemma AllowedNetworksItem()
    ensures ListItemTag("allowed_networks") == Some("allowed_networks")
  {
  }

  lemma DeniedNetworksItem()
    ensures ListItemTag("denied_networks") == Some("denied_networks")
  {
  }

  lemma PathsItem()
    ensures ListItemTag("paths") == Some("path")
  {
    PathsBeforeP();
    PathsInPToW();
  }

  lemma PathsBeforeP()
    ensures ListItemTagAToE("paths").None? && ListItemTagFToO("paths").None?
  {
  }

  lemma PathsInPToW()
    ensures ListItemTagPToW("paths") == Some("path")
  {
  }

  lemma SourcesItem()
    ensures ListItemTag("sources") == Some("source")
  {
    SourcesBeforeP();
    SourcesInPToW();
  }

  lemma SourcesBeforeP()
    ensures ListItemTagAToE("sources").None? && ListItemTagFToO("sources").None?
  {
  }

  lemma SourcesInPToW()
    ensures ListItemTagPToW("sources") == Some("source")
  {
  }

  lemma SkipThreatsItem()
    ensures ListItemTag("skip_threats_filter_categories") == Some("skip_threats_filter_categories")
  {
    SkipThreatsBeforeP();
    SkipThreatsInPToW();
  }

  lemma SkipThreatsBeforeP()
    ensures ListItemTagAToE("skip_threats_filter_categories").None? && ListItemTagFToO("skip_threats_filter_categories").None?
  {
  }

  lemma SkipThreatsInPToW()
    ensures ListItemTagPToW("skip_threats_filter_categories") == Some("skip_threats_filter_categories")
  {
  }

  /** `HTTPBasedPolicy` is not a list container: its dict is written field by
      field. */
  lemma PolicyNotAList()
    ensures ListItemTag("HTTPBasedPolicy").None?
  {
    PolicyNotBeforeP();
    PolicyNotInPToW();
  }

  lemma PolicyNotBeforeP()
    ensures ListItemTagAToE("HTTPBasedPolicy").None? && ListItemTagFToO("HTTPBasedPolicy").None?
  {
  }

  lemma PolicyNotInPToW()
    ensures ListItemTagPToW("HTTPBasedPolicy").None?
  {
  }

  lemma HostsItem()
    ensures ListItemTag("Hosts") == Some("Host")
  {
    HostsBeforeF();
    HostsInFToO();
  }

  lemma HostsBeforeF()
    ensures ListItemTagAToE("Hosts").None?
  {
  }

  lemma HostsInFToO()
    ensures ListItemTagFToO("Hosts") == Some("Host")
  {
  }

  lemma DstHostsItem()
    ensures ListItemTag("DstHosts") == Some("DstHost")
  {
    DstHostsInAToE();
  }

  lemma DstHostsInAToE()
    ensures ListItemTagAToE("DstHosts") == Some("DstHost")
  {
  }

  // The entries the encoder's fixtures go through, and the keys whose
  // alternatives the literal leaves commented out.

  lemma HostListItem()
    ensures ListItemTag("HostList") == Some("Host")
  {
    HostListBeforeF();
    HostListInFToO();
  }

  lemma HostListBeforeF()
    ensures ListItemTagAToE("HostList").None?
  {
  }

  lemma HostListInFToO()
    ensures ListItemTagFToO("HostList") == Some("Host")
  {
  }

  /** `Identity` holds `Member` items: the `Members` variant is not in the
      table (the `SSLTLSInspectionRule` pass produces it instead). */
  lemma IdentityItem()
    ensures ListItemTag("Identity") == Some("Member") && ListItemTag("Identity") != Some("Members")
  {
    IdentityBeforeF();
    IdentityInFToO();
  }

  lemma IdentityBeforeF()
    ensures ListItemTagAToE("Identity").None?
  {
  }

  lemma IdentityInFToO()
    ensures ListItemTagFToO("Identity") == Some("Member")
  {
  }

  lemma WebsitesItem()
    ensures ListItemTag("Websites") == Some("Activity")
  {
    WebsitesBeforeP();
    WebsitesInPToW();
  }

  lemma WebsitesBeforeP()
    ensures ListItemTagAToE("Websites").None? && ListItemTagFToO("Websites").None?
  {
  }

  lemma WebsitesInPToW()
    ensures ListItemTagPToW("Websites") == Some("Activity")
  {
  }

  /** Of the three `DomainList` lines only the `DomainName` one is active. */
  lemma DomainListItem()
    ensures ListItemTag("DomainList") == Some("DomainName")
  {
    DomainListInAToE();
  }

  lemma DomainListInAToE()
    ensures ListItemTagAToE("DomainList") == Some("DomainName")
  {
  }

  /** Of the two `AccessPoints` lines only the `AccessPoint` one is active. */
  lemma AccessPointsItem()
    ensures ListItemTag("AccessPoints") == Some("AccessPoint")
  {
  }

  /** `CategoryList` is written twice in the literal, with the same item tag. */
  lemma CategoryListItem()
    ensures ListItemTag("CategoryList") == Some("Category")
  {
    CategoryListInAToE();
  }

  lemma CategoryListInAToE()
    ensures ListItemTagAToE("CategoryList") == Some("Category")
  {
  }
}
