/**
 * The branching helpers of hpOneView/common.py: member extraction from list
 * envelopes, the interconnect map of a logical interconnect group (its
 * template, the in-place bay occupancy update and the bay lookup), and the
 * payload builders whose output shape depends on their arguments.
 *
 * Payloads whose key set varies with the arguments are `map<string, Value>`
 * (a Python dict); the interconnect map, which is updated in place and
 * searched, is a typed array of entries.
 */
module Common {
  import opened Values

  // ---------------------------------------------------------------------------
  // Member extraction

  /**
   * `get_members`: `[]` for a falsy envelope or falsy `members`, otherwise the
   * `members` value itself. An envelope that is truthy but has no `members`
   * key raises KeyError; one that is not a mapping cannot be indexed by a
   * string (TypeError).
   */
  function GetMembers(mlist: Value): Result<Value, Error>
  {
    if !Truthy(mlist) then Ok(List([]))
    else
      match mlist
      case Dict(m) =>
        if "members" !in m then Err(RuntimeFailure("KeyError"))
        else if !Truthy(m["members"]) then Ok(List([]))
        else Ok(m["members"])
      case _ => Err(RuntimeFailure("TypeError"))
  }

  /** Python's `v[0]` on a truthy value. */
  function FirstItem(v: Value): Result<Value, Error>
  {
    match v
    case List(items) => if items != [] then Ok(items[0]) else Err(RuntimeFailure("IndexError"))
    case Str(s) => if s != "" then Ok(Str([s[0]])) else Err(RuntimeFailure("IndexError"))
    case Dict(_) => Err(RuntimeFailure("KeyError"))
    case _ => Err(RuntimeFailure("TypeError"))
  }

  /** `get_member`: `None` where `get_members` gives `[]`, otherwise the first member. */
  function GetMember(mlist: Value): Result<Value, Error>
  {
    if !Truthy(mlist) then Ok(Null)
    else
      match mlist
      case Dict(m) =>
        if "members" !in m then Err(RuntimeFailure("KeyError"))
        else if !Truthy(m["members"]) then Ok(Null)
        else FirstItem(m["members"])
      case _ => Err(RuntimeFailure("TypeError"))
  }

  /**
   * An empty envelope or empty `members` gives `[]`; otherwise the members
   * come back unchanged; a truthy envelope is never silently emptied.
   */
  lemma GetMembersSpec(mlist: Value)
    ensures !Truthy(mlist) ==> GetMembers(mlist) == Ok(List([]))
    ensures mlist.Dict? && "members" in mlist.fields ==>
              GetMembers(mlist) ==
              Ok(if Truthy(mlist.fields["members"]) then mlist.fields["members"] else List([]))
    ensures GetMembers(mlist).Ok? && Truthy(mlist) ==>
              mlist.Dict? && "members" in mlist.fields
  {
  }

  /** `get_member` is `get_members` followed by taking the first member, with `None` for none. */
  lemma GetMemberIsFirstOfMembers(mlist: Value)
    ensures GetMember(mlist) ==
            match GetMembers(mlist)
            case Err(e) => Err(e)
            case Ok(ms) => if Truthy(ms) then FirstItem(ms) else Ok(Null)
  {
  }

  // ---------------------------------------------------------------------------
  // The interconnect map

  datatype LocationEntry = LocationEntry(kind: string, relativeValue: int)

  /** One entry of `interconnectMapEntryTemplates`. */
  datatype MapEntry = MapEntry(locationEntries: seq<LocationEntry>,
                               permittedInterconnectTypeUri: Option<string>,
                               logicalDownlinkUri: Option<string>)

  function TemplateEntry(bay: int): MapEntry
  {
    MapEntry([LocationEntry("Bay", bay), LocationEntry("Enclosure", 1)], None, None)
  }

  /** `make_interconnect_map_template`: one unoccupied entry per bay 1..8 of enclosure 1. */
  function InterconnectMapTemplate(): (entries: seq<MapEntry>)
    ensures |entries| == 8
  {
    seq(8, i => TemplateEntry(i + 1))
  }

  /** The entry has a `Bay` location whose value is `bay`. */
  predicate HasBay(e: MapEntry, bay: int)
  {
    exists k :: 0 <= k < |e.locationEntries| &&
      e.locationEntries[k].kind == "Bay" && e.locationEntries[k].relativeValue == bay
  }

  /** The entry has a `Bay` location whose value is one of `bays`. */
  predicate HasBayIn(e: MapEntry, bays: seq<int>)
  {
    exists k :: 0 <= k < |e.locationEntries| &&
      e.locationEntries[k].kind == "Bay" && e.locationEntries[k].relativeValue in bays
  }

  /** The first entry that has a `Bay` location equal to `bay`, if any. */
  function FirstBayEntry(entries: seq<MapEntry>, bay: int): Option<MapEntry>
  {
    if entries == [] then None
    else if HasBay(entries[0], bay) then Some(entries[0])
    else FirstBayEntry(entries[1..], bay)
  }

  lemma {:induction false} FirstBayEntrySpec(entries: seq<MapEntry>, bay: int)
    ensures FirstBayEntry(entries, bay).None? <==>
            forall i :: 0 <= i < |entries| ==> !HasBay(entries[i], bay)
    ensures FirstBayEntry(entries, bay).Some? ==>
            exists i :: 0 <= i < |entries| && FirstBayEntry(entries, bay).value == entries[i] &&
                        HasBay(entries[i], bay) &&
                        forall j :: 0 <= j < i ==> !HasBay(entries[j], bay)
  {
    if entries != [] && !HasBay(entries[0], bay) {
      FirstBayEntrySpec(entries[1..], bay);
      assert forall i :: 1 <= i < |entries| ==> entries[i] == entries[1..][i - 1];
      if FirstBayEntry(entries[1..], bay).Some? {
        var i :| 0 <= i < |entries[1..]| && FirstBayEntry(entries[1..], bay).value == entries[1..][i] &&
                 HasBay(entries[1..][i], bay) && forall j :: 0 <= j < i ==> !HasBay(entries[1..][j], bay);
        assert entries[i + 1] == entries[1..][i];
      }
    } else if entries != [] {
      assert FirstBayEntry(entries, bay).value == entries[0];
    }
  }

  /**
   * `get_iobay_entry`: nothing for a falsy map (`null` here stands for Python's
   * `None` or `{}`), otherwise the first entry holding a `Bay` location equal
   * to `bay`, and nothing when no entry does.
   */
  method GetIobayEntry(interconnectMap: array?<MapEntry>, bay: int) returns (r: Option<MapEntry>)
    ensures interconnectMap == null ==> r == None
    ensures interconnectMap != null ==> r == FirstBayEntry(interconnectMap[..], bay)
    ensures r.None? ==> interconnectMap == null ||
                        forall i :: 0 <= i < interconnectMap.Length ==> !HasBay(interconnectMap[i], bay)
    ensures r.Some? ==> interconnectMap != null &&
                        exists i :: 0 <= i < interconnectMap.Length && r.value == interconnectMap[i] &&
                                    HasBay(interconnectMap[i], bay) &&
                                    forall j :: 0 <= j < i ==> !HasBay(interconnectMap[j], bay)
  {
    if interconnectMap == null {
      return None;
    }
    var i := 0;
    while i < interconnectMap.Length
      invariant 0 <= i <= interconnectMap.Length
      invariant forall k :: 0 <= k < i ==> !HasBay(interconnectMap[k], bay)
      invariant FirstBayEntry(interconnectMap[..], bay) == FirstBayEntry(interconnectMap[i..], bay)
    {
      var entries := interconnectMap[i].locationEntries;
      var j := 0;
      while j < |entries|
        invariant 0 <= j <= |entries|
        invariant forall k :: 0 <= k < j ==> !(entries[k].kind == "Bay" && entries[k].relativeValue == bay)
      {
        if entries[j].kind == "Bay" {
          if bay == entries[j].relativeValue {
            assert HasBay(interconnectMap[i], bay);
            assert interconnectMap[i..][0] == interconnectMap[i];
            r := Some(interconnectMap[i]);
            FirstBayEntrySpec(interconnectMap[..], bay);
            return;
          }
        }
        j := j + 1;
      }
      assert interconnectMap[i..][1..] == interconnectMap[i + 1..];
      i := i + 1;
    }
    r := None;
    FirstBayEntrySpec(interconnectMap[..], bay);
  }

  /** What `set_iobay_occupancy` does to one entry. */
  function Occupy(e: MapEntry, bays: seq<int>, stype: Option<string>): MapEntry
  {
    if HasBayIn(e, bays) then e.(permittedInterconnectTypeUri := stype) else e
  }

  /**
   * `set_iobay_occupancy`: in place, sets `permittedInterconnectTypeUri` to
   * `stype` on exactly the entries that have a `Bay` location listed in
   * `bays`; the number and order of entries and every other field stay.
   */
  method SetIobayOccupancy(switchMap: array<MapEntry>, bays: seq<int>, stype: Option<string>)
    modifies switchMap
    ensures forall i :: 0 <= i < switchMap.Length ==> switchMap[i] == Occupy(old(switchMap[i]), bays, stype)
  {
    for i := 0 to switchMap.Length
      invariant forall k :: 0 <= k < i ==> switchMap[k] == Occupy(old(switchMap[k]), bays, stype)
      invariant forall k :: i <= k < switchMap.Length ==> switchMap[k] == old(switchMap[k])
    {
      if HasBayIn(switchMap[i], bays) {
        switchMap[i] := switchMap[i].(permittedInterconnectTypeUri := stype);
      }
    }
  }

  /** Occupancy touches only `permittedInterconnectTypeUri`, and applying it twice changes nothing more. */
  lemma OccupyFrame(e: MapEntry, bays: seq<int>, stype: Option<string>)
    ensures Occupy(e, bays, stype).locationEntries == e.locationEntries
    ensures Occupy(e, bays, stype).logicalDownlinkUri == e.logicalDownlinkUri
    ensures Occupy(e, bays, stype).permittedInterconnectTypeUri ==
            if HasBayIn(e, bays) then stype else e.permittedInterconnectTypeUri
    ensures Occupy(Occupy(e, bays, stype), bays, stype) == Occupy(e, bays, stype)
  {
  }

  lemma TemplateEntryBays(bay: int, bays: seq<int>, b: int)
    ensures HasBay(TemplateEntry(bay), b) <==> b == bay
    ensures HasBayIn(TemplateEntry(bay), bays) <==> bay in bays
  {
    var e := TemplateEntry(bay);
    assert e.locationEntries[0].kind == "Bay" && e.locationEntries[0].relativeValue == bay;
    assert e.locationEntries[1].kind != "Bay" by {
      assert e.locationEntries[1].kind[0] == 'E';
    }
  }

  /**
   * The template has one entry per bay 1..8 of enclosure 1, each unoccupied
   * with no logical downlink, and looking up bay `b` finds entry `b` exactly
   * when `b` is one of the eight bays.
   */
  lemma TemplateBays(b: int)
    ensures forall i :: 0 <= i < 8 ==>
              InterconnectMapTemplate()[i].locationEntries ==
                [LocationEntry("Bay", i + 1), LocationEntry("Enclosure", 1)] &&
              InterconnectMapTemplate()[i].permittedInterconnectTypeUri == None &&
              InterconnectMapTemplate()[i].logicalDownlinkUri == None
    ensures FirstBayEntry(InterconnectMapTemplate(), b) ==
            if 1 <= b <= 8 then Some(InterconnectMapTemplate()[b - 1]) else None
  {
    var t := InterconnectMapTemplate();
    forall i | 0 <= i < 8 ensures HasBay(t[i], b) <==> b == i + 1 {
      TemplateEntryBays(i + 1, [], b);
    }
    FirstBayEntrySpec(t, b);
    if 1 <= b <= 8 {
      assert HasBay(t[b - 1], b);
      var i :| 0 <= i < |t| && FirstBayEntry(t, b).value == t[i] &&
               HasBay(t[i], b) && forall j :: 0 <= j < i ==> !HasBay(t[j], b);
      assert i == b - 1;
    }
  }

  /** Occupying the template marks entry `i` exactly when bay `i + 1` is listed. */
  lemma TemplateOccupancy(bays: seq<int>, stype: Option<string>)
    ensures forall i :: 0 <= i < 8 ==>
              Occupy(InterconnectMapTemplate()[i], bays, stype).permittedInterconnectTypeUri ==
              if i + 1 in bays then stype else None
  {
    forall i | 0 <= i < 8
      ensures Occupy(InterconnectMapTemplate()[i], bays, stype).permittedInterconnectTypeUri ==
              if i + 1 in bays then stype else None
    {
      TemplateEntryBays(i + 1, bays, 0);
    }
  }

  // ---------------------------------------------------------------------------
  // Builders whose shape depends on their arguments

  /**
   * The key is present exactly when the argument is given (not Python's
   * `None`), and then holds it.
   */
  ghost predicate PresentIffGiven<V>(d: map<string, V>, key: string, arg: Option<V>)
  {
    (key in d <==> arg.Some?) && (key in d ==> d[key] == arg.value)
  }

  const UPLINK_TYPE_ERROR := "networkType must be Ethernet or FibreChannel."
  const IPV4_TYPE_ERROR := "ipv4Type must be STATIC or DHCP."

  /** The keys both uplink-set variants have. */
  const UPLINK_KEYS: set<string> :=
    {"name", "ethernetNetworkType", "networkUris", "networkType", "mode", "logicalPortConfigInfos"}

  /**
   * `make_uplink_set_dict`: an Ethernet set is Tagged and also names a primary
   * port and a native network (both `None`); a Fibre Channel set is
   * NotApplicable; any other network type is refused.
   */
  function MakeUplinkSetDict(name: Value, networks: seq<Value>, ntype: Value): (r: Result<map<string, Value>, Error>)
    ensures r.Ok? <==> ntype == Str("Ethernet") || ntype == Str("FibreChannel")
    ensures r.Err? ==> r.error == Exception(UPLINK_TYPE_ERROR)
    ensures r.Ok? ==> UPLINK_KEYS <= r.value.Keys &&
                      r.value["name"] == name && r.value["networkType"] == ntype &&
                      r.value["networkUris"] == List(networks) && r.value["mode"] == Str("Auto") &&
                      r.value["logicalPortConfigInfos"] == List([])
    ensures r.Ok? ==> r.value["ethernetNetworkType"] ==
                      if ntype == Str("Ethernet") then Str("Tagged") else Str("NotApplicable")
    ensures r.Ok? ==> r.value.Keys ==
                      if ntype == Str("Ethernet") then UPLINK_KEYS + {"primaryPort", "nativeNetworkUri"}
                      else UPLINK_KEYS
    ensures r.Ok? && ntype == Str("Ethernet") ==>
              r.value["primaryPort"] == Null && r.value["nativeNetworkUri"] == Null
  {
    if ntype == Str("Ethernet") then
      Ok(map["name" := name,
             "ethernetNetworkType" := Str("Tagged"),
             "networkUris" := List(networks),
             "networkType" := Str("Ethernet"),
             "mode" := Str("Auto"),
             "primaryPort" := Null,
             "logicalPortConfigInfos" := List([]),
             "nativeNetworkUri" := Null])
    else if ntype == Str("FibreChannel") then
      Ok(map["name" := name,
             "ethernetNetworkType" := Str("NotApplicable"),
             "networkUris" := List(networks),
             "logicalPortConfigInfos" := List([]),
             "networkType" := Str("FibreChannel"),
             "mode" := Str("Auto")])
    else Err(Exception(UPLINK_TYPE_ERROR))
  }

  /** `make_egroup_dict`: eight bay mappings, bays 1..8 in order, each to the given group. */
  function MakeEgroupDict(name: Value, lig: Value, smode: Value): (d: map<string, Value>)
    ensures d.Keys == {"name", "type", "stackingMode", "interconnectBayMappings"}
    ensures d["name"] == name && d["type"] == Str("EnclosureGroupV2") && d["stackingMode"] == smode
    ensures d["interconnectBayMappings"].List? && |d["interconnectBayMappings"].items| == 8
  {
    map["name" := name,
        "type" := Str("EnclosureGroupV2"),
        "stackingMode" := smode,
        "interconnectBayMappings" :=
          List(seq(8, n => Dict(map["interconnectBay" := Int(n + 1),
                                    "logicalInterconnectGroupUri" := lig])))]
  }

  /**
   * Every bay of the enclosure group maps to the one logical interconnect
   * group, and its `interconnectBay` numbers the same bay as the entry at the
   * same position of the interconnect map template.
   */
  lemma EgroupBaysMatchTemplate(name: Value, lig: Value, smode: Value)
    ensures forall i :: 0 <= i < 8 ==>
              var m := MakeEgroupDict(name, lig, smode)["interconnectBayMappings"].items[i];
              m.Dict? && m.fields.Keys == {"interconnectBay", "logicalInterconnectGroupUri"} &&
              m.fields["logicalInterconnectGroupUri"] == lig &&
              m.fields["interconnectBay"] == Int(InterconnectMapTemplate()[i].locationEntries[0].relativeValue)
  {
  }

  /** `make_profile_connection_boot_target_dict`: a one-element list of `{arrayWwpn, lun}`. */
  function MakeProfileConnectionBootTargetDict(arrayWwpn: Value, lun: Value): (r: Value)
    ensures r.List? && |r.items| == 1 && r.items[0].Dict?
    ensures r.items[0].fields.Keys == {"arrayWwpn", "lun"}
    ensures r.items[0].fields["arrayWwpn"] == arrayWwpn && r.items[0].fields["lun"] == lun
  {
    List([Dict(map["arrayWwpn" := arrayWwpn, "lun" := lun])])
  }

  /**
   * `make_profile_connection_boot_dict`: just the priority when neither target
   * field is given, otherwise also the one-element target list.
   */
  function MakeProfileConnectionBootDict(priority: Value, arrayWwpn: Value, lun: Value): (d: map<string, Value>)
    ensures "priority" in d && d["priority"] == priority
    ensures d.Keys == if arrayWwpn == Null && lun == Null then {"priority"} else {"priority", "targets"}
    ensures "targets" in d ==>
              d["targets"].List? && |d["targets"].items| == 1 &&
              d["targets"].items[0] == Dict(map["arrayWwpn" := arrayWwpn, "lun" := lun])
  {
    if arrayWwpn == Null && lun == Null then
      map["priority" := priority]
    else
      map["priority" := priority,
          "targets" := MakeProfileConnectionBootTargetDict(arrayWwpn, lun)]
  }

  /** The keys of an appliance network under DHCP, and those STATIC adds. */
  const DHCP_NETWORK_KEYS: set<string> := {"confOneNode", "hostname", "macAddress", "ipv4Type", "ipv6Type"}
  const STATIC_NETWORK_KEYS: set<string> := {"app1Ipv4Addr", "ipv4Subnet", "ipv4Gateway", "searchDomains"}

  /** The one network a successful appliance network configuration describes. */
  predicate SingleNetwork(d: map<string, Value>)
  {
    d.Keys == {"applianceNetworks"} && d["applianceNetworks"].List? &&
    |d["applianceNetworks"].items| == 1 && d["applianceNetworks"].items[0].Dict?
  }

  /**
   * `make_appliance_network_config_dict`: one network, configured on one
   * node. DHCP carries no address fields, STATIC carries the given address,
   * subnet and gateway and an empty search-domain list; any other IPv4 type
   * is refused. The two search-domain arguments are never used.
   */
  function MakeApplianceNetworkConfigDict(hostName: Value, macAddress: Value,
                                          newApp1Ipv4Addr: Value, newIpv4Subnet: Value,
                                          newIpv4Gateway: Value, newSearchDomain1: Value,
                                          newSearchDomain2: Value, ipv4Type: Value,
                                          ipv6Type: Value): (r: Result<map<string, Value>, Error>)
    ensures r.Ok? <==> ipv4Type == Str("DHCP") || ipv4Type == Str("STATIC")
    ensures r.Err? ==> r.error == Exception(IPV4_TYPE_ERROR)
    ensures r.Ok? ==> SingleNetwork(r.value)
    ensures r.Ok? ==>
              var net := r.value["applianceNetworks"].items[0].fields;
              DHCP_NETWORK_KEYS <= net.Keys &&
              net["confOneNode"] == Bool(true) && net["hostname"] == hostName &&
              net["macAddress"] == macAddress && net["ipv4Type"] == ipv4Type &&
              net["ipv6Type"] == ipv6Type
    ensures r.Ok? && ipv4Type == Str("DHCP") ==>
              r.value["applianceNetworks"].items[0].fields.Keys == DHCP_NETWORK_KEYS
    ensures r.Ok? && ipv4Type == Str("STATIC") ==>
              var net := r.value["applianceNetworks"].items[0].fields;
              net.Keys == DHCP_NETWORK_KEYS + STATIC_NETWORK_KEYS &&
              net["app1Ipv4Addr"] == newApp1Ipv4Addr && net["ipv4Subnet"] == newIpv4Subnet &&
              net["ipv4Gateway"] == newIpv4Gateway && net["searchDomains"] == List([])
  {
    if ipv4Type == Str("DHCP") then
      Ok(map["applianceNetworks" := List([Dict(map[
        "confOneNode" := Bool(true),
        "hostname" := hostName,
        "macAddress" := macAddress,
        "ipv4Type" := ipv4Type,
        "ipv6Type" := ipv6Type])])])
    else if ipv4Type == Str("STATIC") then
      Ok(map["applianceNetworks" := List([Dict(map[
        "confOneNode" := Bool(true),
        "hostname" := hostName,
        "macAddress" := macAddress,
        "ipv4Type" := ipv4Type,
        "ipv6Type" := ipv6Type,
        "app1Ipv4Addr" := newApp1Ipv4Addr,
        "ipv4Subnet" := newIpv4Subnet,
        "ipv4Gateway" := newIpv4Gateway,
        "searchDomains" := List([])])])])
    else Err(Exception(IPV4_TYPE_ERROR))
  }

  const USER_MODIFY_KEYS: set<string> :=
    {"userName", "password", "currentPassword", "replaceRoles", "roles", "emailAddress",
     "officePhone", "mobilePhone", "enabled", "fullName"}

  /**
   * The dictionary `make_user_modify_dict` builds, one conditional entry at a
   * time in the order the source adds them. The builder never inspects the
   * values it stores, so their type is a parameter; `None` is an absent
   * optional argument.
   */
  function UserModifyFields<V>(userName: V, password: Option<V>, currentPassword: Option<V>,
                               replaceRoles: Option<V>, roles: Option<V>, emailAddress: Option<V>,
                               officePhone: Option<V>, mobilePhone: Option<V>, enabled: Option<V>,
                               fullName: Option<V>): map<string, V>
  {
    var d := map["userName" := userName];
    var d := if password.Some? && currentPassword.Some?
             then d["password" := password.value]["currentPassword" := currentPassword.value] else d;
    var d := if replaceRoles.Some? then d["replaceRoles" := replaceRoles.value] else d;
    var d := if roles.Some? then d["roles" := roles.value] else d;
    var d := if emailAddress.Some? then d["emailAddress" := emailAddress.value] else d;
    var d := if officePhone.Some? then d["officePhone" := officePhone.value] else d;
    var d := if mobilePhone.Some? then d["mobilePhone" := mobilePhone.value] else d;
    var d := if enabled.Some? then d["enabled" := enabled.value] else d;
    if fullName.Some? then d["fullName" := fullName.value] else d
  }

  /**
   * The user name is always sent; the password and the current password are
   * sent together, only when both are given; no other key appears.
   */
  lemma UserModifyPasswords<V>(userName: V, password: Option<V>, currentPassword: Option<V>,
                                   replaceRoles: Option<V>, roles: Option<V>, emailAddress: Option<V>,
                                   officePhone: Option<V>, mobilePhone: Option<V>, enabled: Option<V>,
                                   fullName: Option<V>)
    ensures var d := UserModifyFields(userName, password, currentPassword, replaceRoles, roles,
                                      emailAddress, officePhone, mobilePhone, enabled, fullName);
            "userName" in d && d["userName"] == userName &&
            ("password" in d) == ("currentPassword" in d) == (password.Some? && currentPassword.Some?) &&
            ("password" in d ==> d["password"] == password.value &&
                                 d["currentPassword"] == currentPassword.value) &&
            d.Keys <= USER_MODIFY_KEYS
  {
  }

  /** Roles and e-mail address are sent exactly when they are given. */
  lemma UserModifyRoles<V>(userName: V, password: Option<V>, currentPassword: Option<V>,
                         replaceRoles: Option<V>, roles: Option<V>, emailAddress: Option<V>,
                         officePhone: Option<V>, mobilePhone: Option<V>, enabled: Option<V>,
                         fullName: Option<V>)
    ensures var d := UserModifyFields(userName, password, currentPassword, replaceRoles, roles,
                                      emailAddress, officePhone, mobilePhone, enabled, fullName);
            PresentIffGiven(d, "replaceRoles", replaceRoles) &&
            PresentIffGiven(d, "roles", roles) &&
            PresentIffGiven(d, "emailAddress", emailAddress)
  {
  }

  /** Phones, the enabled flag and the full name are sent exactly when they are given. */
  lemma UserModifyContact<V>(userName: V, password: Option<V>, currentPassword: Option<V>,
                         replaceRoles: Option<V>, roles: Option<V>, emailAddress: Option<V>,
                         officePhone: Option<V>, mobilePhone: Option<V>, enabled: Option<V>,
                         fullName: Option<V>)
    ensures var d := UserModifyFields(userName, password, currentPassword, replaceRoles, roles,
                                      emailAddress, officePhone, mobilePhone, enabled, fullName);
            PresentIffGiven(d, "officePhone", officePhone) &&
            PresentIffGiven(d, "mobilePhone", mobilePhone) &&
            PresentIffGiven(d, "enabled", enabled) &&
            PresentIffGiven(d, "fullName", fullName)
  {
  }

  /** `make_user_modify_dict`: grows the dictionary field by field. */
  method MakeUserModifyDict<V>(userName: V, password: Option<V>, currentPassword: Option<V>,
                               replaceRoles: Option<V>, roles: Option<V>, emailAddress: Option<V>,
                               officePhone: Option<V>, mobilePhone: Option<V>, enabled: Option<V>,
                               fullName: Option<V>) returns (userDict: map<string, V>)
    ensures userDict == UserModifyFields(userName, password, currentPassword, replaceRoles, roles,
                                         emailAddress, officePhone, mobilePhone, enabled, fullName)
  {
    userDict := map["userName" := userName];
    if password.Some? && currentPassword.Some? {
      userDict := userDict["password" := password.value];
      userDict := userDict["currentPassword" := currentPassword.value];
    }
    if replaceRoles.Some? {
      userDict := userDict["replaceRoles" := replaceRoles.value];
    }
    if roles.Some? {
      userDict := userDict["roles" := roles.value];
    }
    if emailAddress.Some? {
      userDict := userDict["emailAddress" := emailAddress.value];
    }
    if officePhone.Some? {
      userDict := userDict["officePhone" := officePhone.value];
    }
    if mobilePhone.Some? {
      userDict := userDict["mobilePhone" := mobilePhone.value];
    }
    if enabled.Some? {
      userDict := userDict["enabled" := enabled.value];
    }
    if fullName.Some? {
      userDict := userDict["fullName" := fullName.value];
    }
  }

  /** `make_update_alert_dict`: exactly the fields that are given. */
  method MakeUpdateAlertDict<V>(alertState: Option<V>, assignedToUser: Option<V>, eTag: Option<V>)
    returns (alertDict: map<string, V>)
    ensures PresentIffGiven(alertDict, "alertState", alertState)
    ensures PresentIffGiven(alertDict, "assignedToUser", assignedToUser)
    ensures PresentIffGiven(alertDict, "eTag", eTag)
    ensures alertDict.Keys <= {"alertState", "assignedToUser", "eTag"}
  {
    alertDict := map[];
    if alertState.Some? {
      alertDict := alertDict["alertState" := alertState.value];
    }
    if assignedToUser.Some? {
      alertDict := alertDict["assignedToUser" := assignedToUser.value];
    }
    if eTag.Some? {
      alertDict := alertDict["eTag" := eTag.value];
    }
  }
}
