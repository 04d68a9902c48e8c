/** The three record classes the client builds from decoded hub replies:
    `HomeyDeviceCapability`, `HomeyDevice` and `HomeyDriver`. Each Python
    constructor reads its fields from a dict and raises if one is missing;
    here it returns `None` instead. */
module Records {
  import opened Wrappers
  import opened PyJson

  /** `j` is a dict holding every key in `keys`. */
  predicate HasKeys(j: Json, keys: set<string>) {
    forall k :: k in keys ==> Item(j, k).Some?
  }

  datatype HomeyDeviceCapability = HomeyDeviceCapability(
    id: string,
    valueType: string,
    title: string,
    gettable: bool,
    settable: bool,
    value: Json,
    lastUpdated: Json)

  const CapabilityKeys: set<string> :=
    {"id", "type", "title", "getable", "setable", "value", "lastUpdated"}

  /** `HomeyDeviceCapability(json)`. The hub spells the flags "getable" and
      "setable". */
  function CapabilityFromJson(j: Json): (r: Option<HomeyDeviceCapability>)
    ensures r.Some? <==> HasKeys(j, CapabilityKeys)
    ensures r.Some? ==>
      && r.value.id == PyStr(Item(j, "id").value)
      && r.value.gettable == Truthy(Item(j, "getable").value)
      && r.value.settable == Truthy(Item(j, "setable").value)
      && r.value.value == Item(j, "value").value
  {
    var id :- Item(j, "id");
    var valueType :- Item(j, "type");
    var title :- Item(j, "title");
    var getable :- Item(j, "getable");
    var setable :- Item(j, "setable");
    var value :- Item(j, "value");
    var lastUpdated :- Item(j, "lastUpdated");
    Some(HomeyDeviceCapability(PyStr(id), PyStr(valueType), PyStr(title),
                               Truthy(getable), Truthy(setable), value, lastUpdated))
  }

  datatype HomeyDevice = HomeyDevice(
    id: string,
    driverId: string,
    driverUri: string,
    name: string,
    deviceClass: string,
    virtualClass: string,
    capabilities: seq<HomeyDeviceCapability>,
    settings: Json,
    flags: seq<Json>,
    energy: Json,
    uiIndicatorCapabilityId: string,
    isAvailable: bool,
    isReady: bool,
    isHidden: bool)

  const DeviceKeys: set<string> :=
    {"id", "driverId", "driverUri", "name", "class", "virtualClass", "capabilitiesObj",
     "settings", "flags", "energyObj", "uiIndicator", "available", "ready", "hidden"}

  /** The capabilities of a device: one per value of its "capabilitiesObj"
      dict, in the dict's order. */
  function Capabilities(capabilitiesObj: Json): (r: Option<seq<HomeyDeviceCapability>>)
    ensures r.Some? <==>
      capabilitiesObj.JObject? &&
      forall i :: 0 <= i < |capabilitiesObj.members| ==> CapabilityFromJson(capabilitiesObj.members[i].1).Some?
    ensures r.Some? ==>
      |r.value| == |capabilitiesObj.members| &&
      forall i :: 0 <= i < |r.value| ==> Some(r.value[i]) == CapabilityFromJson(capabilitiesObj.members[i].1)
  {
    var values :- Values(capabilitiesObj);
    ListOf(values, CapabilityFromJson)
  }

  /** `HomeyDevice(json)`. Python reads the fields in order and stops at the
      first that raises; as nothing else happens in between, checking all
      keys first gives the same outcome. */
  function DeviceFromJson(j: Json): (r: Option<HomeyDevice>)
    ensures r.Some? <==>
      && HasKeys(j, DeviceKeys)
      && Capabilities(Item(j, "capabilitiesObj").value).Some?
      && Iterate(Item(j, "flags").value).Some?
    ensures r.Some? ==>
      && r.value.capabilities == Capabilities(Item(j, "capabilitiesObj").value).value
      && r.value.uiIndicatorCapabilityId == PyStr(Item(j, "uiIndicator").value)
      && r.value.isAvailable == Truthy(Item(j, "available").value)
      && r.value.flags == Iterate(Item(j, "flags").value).value
      && r.value.settings == Item(j, "settings").value
      && r.value.energy == Item(j, "energyObj").value
  {
    if !HasKeys(j, DeviceKeys) then None
    else
      var capabilities :- Capabilities(Item(j, "capabilitiesObj").value);
      var flags :- Iterate(Item(j, "flags").value);
      Some(HomeyDevice(
        id := PyStr(Item(j, "id").value),
        driverId := PyStr(Item(j, "driverId").value),
        driverUri := PyStr(Item(j, "driverUri").value),
        name := PyStr(Item(j, "name").value),
        deviceClass := PyStr(Item(j, "class").value),
        virtualClass := PyStr(Item(j, "virtualClass").value),
        capabilities := capabilities,
        settings := Item(j, "settings").value,
        flags := flags,
        energy := Item(j, "energyObj").value,
        uiIndicatorCapabilityId := PyStr(Item(j, "uiIndicator").value),
        isAvailable := Truthy(Item(j, "available").value),
        isReady := Truthy(Item(j, "ready").value),
        isHidden := Truthy(Item(j, "hidden").value)))
  }

  datatype HomeyDriver = HomeyDriver(
    id: string,
    ownerUri: string,
    ownerName: string,
    ownerIconUrlPath: Option<string>,
    name: string,
    iconUrlPath: Option<string>,
    color: string,
    deviceClass: string,
    isReady: bool,
    canPair: bool,
    canRepair: bool,
    canUnpair: bool,
    connectivityType: Option<string>)

  const DriverKeys: set<string> :=
    {"id", "ownerUri", "ownerName", "ownerIconObj", "name", "iconObj", "color", "class",
     "ready", "pair", "repair", "unpair", "connectivity"}

  /** `str(icon["url"]) if icon else None`: no path for a falsy icon object;
      for a truthy one, its "url" (and a failure when that lookup raises). */
  function IconUrlPath(icon: Json): (r: Option<Option<string>>)
    ensures !Truthy(icon) ==> r == Some(None)
    ensures Truthy(icon) ==> (r.Some? <==> Item(icon, "url").Some?)
    ensures Truthy(icon) && Item(icon, "url").Some? ==> r == Some(Some(PyStr(Item(icon, "url").value)))
    ensures r.Some? && r.value.Some? ==>
      Truthy(icon) && icon.JObject? && r.value.value == PyStr(Item(icon, "url").value)
  {
    if Truthy(icon) then
      var url :- Item(icon, "url");
      Some(Some(PyStr(url)))
    else
      Some(None)
  }

  /** `str(c[0]) if c and len(c) > 0 else None`. */
  function ConnectivityType(c: Json): (r: Option<Option<string>>)
    // a falsy value (None, an empty list) has no connectivity type
    ensures !Truthy(c) ==> r == Some(None)
    // a non-empty list gives its first entry
    ensures c.JArray? && c.items != [] ==> r == Some(Some(PyStr(c.items[0])))
    // a non-empty string gives its first character
    ensures c.JString? && c.s != "" ==> r == Some(Some([c.s[0]]))
    // a truthy number or `True` has no len(); a non-empty dict has no key 0
    ensures Truthy(c) && (c.JInt? || c.JBool? || c.JObject?) ==> r.None?
  {
    if !Truthy(c) then Some(None)
    else
      var n :- Len(c);
      if n > 0 then
        var first :- At(c, 0);
        Some(Some(PyStr(first)))
      else
        Some(None)
  }

  /** `HomeyDriver(json)`, with the keys checked first as for devices. */
  function DriverFromJson(j: Json): (r: Option<HomeyDriver>)
    ensures r.Some? <==>
      && HasKeys(j, DriverKeys)
      && IconUrlPath(Item(j, "ownerIconObj").value).Some?
      && IconUrlPath(Item(j, "iconObj").value).Some?
      && ConnectivityType(Item(j, "connectivity").value).Some?
    ensures r.Some? ==>
      && r.value.ownerIconUrlPath == IconUrlPath(Item(j, "ownerIconObj").value).value
      && r.value.iconUrlPath == IconUrlPath(Item(j, "iconObj").value).value
      && r.value.connectivityType == ConnectivityType(Item(j, "connectivity").value).value
  {
    if !HasKeys(j, DriverKeys) then None
    else
      var ownerIconUrlPath :- IconUrlPath(Item(j, "ownerIconObj").value);
      var iconUrlPath :- IconUrlPath(Item(j, "iconObj").value);
      var connectivityType :- ConnectivityType(Item(j, "connectivity").value);
      Some(HomeyDriver(
        id := PyStr(Item(j, "id").value),
        ownerUri := PyStr(Item(j, "ownerUri").value),
        ownerName := PyStr(Item(j, "ownerName").value),
        ownerIconUrlPath := ownerIconUrlPath,
        name := PyStr(Item(j, "name").value),
        iconUrlPath := iconUrlPath,
        color := PyStr(Item(j, "color").value),
        deviceClass := PyStr(Item(j, "class").value),
        isReady := Truthy(Item(j, "ready").value),
        canPair := Truthy(Item(j, "pair").value),
        canRepair := Truthy(Item(j, "repair").value),
        canUnpair := Truthy(Item(j, "unpair").value),
        connectivityType := connectivityType))
  }
}
