/** The five hub API calls: the request each one sends (an "api" event
    naming a URI and an operation, whose arguments always carry
    "$validate": true), the literal ack digit it uses and how its decoded
    reply becomes its result. */
module Api {
  import opened Wrappers
  import opened PyJson
  import opened Records

  // The ack digits are literals at each call site, not a counter.
  const GetDevicesAck := '0'
  const GetDeviceAck := '1'
  const GetCapabilityValueAck := '2'
  const SetCapabilityValueAck := '3'
  const GetDriversAck := '4'

  const DevicesUri := "homey:manager:devices"
  const DriversUri := "homey:manager:drivers"

  /** `request[1][key]`: a field of the request's body. */
  function RequestField(request: Json, key: string): Option<Json> {
    var body :- At(request, 1);
    Item(body, key)
  }

  /** `request[1]["args"][key]`: an argument of the request. */
  function RequestArg(request: Json, key: string): Option<Json> {
    var args :- RequestField(request, "args");
    Item(args, key)
  }

  /** `["api", {"args": {"$validate": true, ...args}, "operation": ..., "uri": ...}]`. */
  function ApiRequest(uri: string, operation: string, args: seq<(string, Json)>): (r: Json)
    ensures r.JArray? && |r.items| == 2 && r.items[1].JObject? && |r.items[1].members| == 3
    ensures At(r, 0) == Some(JString("api"))
    ensures RequestField(r, "args").Some? && RequestField(r, "args").value.JObject?
    ensures |RequestField(r, "args").value.members| == |args| + 1
    ensures RequestField(r, "uri") == Some(JString(uri))
    ensures RequestField(r, "operation") == Some(JString(operation))
    ensures RequestArg(r, "$validate") == Some(JBool(true))
    ensures forall key :: key != "$validate" ==> RequestArg(r, key) == Lookup(args, key)
  {
    var all := [("$validate", JBool(true))] + args;
    forall key | key != "$validate" ensures Lookup(all, key) == Lookup(args, key) {
      LookupSkip(("$validate", JBool(true)), args, key);
    }
    var uriMember := ("uri", JString(uri));
    var operationMember := ("operation", JString(operation));
    LookupSkip(operationMember, [uriMember], "uri");
    LookupSkip(("args", JObject(all)), [operationMember, uriMember], "uri");
    LookupSkip(("args", JObject(all)), [operationMember, uriMember], "operation");
    JArray([JString("api"), JObject([("args", JObject(all)), operationMember, uriMember])])
  }

  function GetDevicesRequest(): (r: Json)
    ensures RequestField(r, "uri") == Some(JString(DevicesUri))
    ensures RequestField(r, "operation") == Some(JString("getDevices"))
    ensures RequestArg(r, "query") == Some(JObject([]))
  {
    ApiRequest(DevicesUri, "getDevices", [("query", JObject([]))])
  }

  function GetDeviceRequest(deviceId: string): (r: Json)
    ensures RequestField(r, "uri") == Some(JString(DevicesUri))
    ensures RequestField(r, "operation") == Some(JString("getDevice"))
    ensures RequestArg(r, "query") == Some(JObject([]))
    ensures RequestArg(r, "id") == Some(JString(deviceId))
  {
    var args := [("query", JObject([])), ("id", JString(deviceId))];
    LookupSkip(args[0], [args[1]], "id");
    ApiRequest(DevicesUri, "getDevice", args)
  }

  function GetCapabilityValueRequest(deviceId: string, capabilityId: string): (r: Json)
    ensures RequestField(r, "uri") == Some(JString(DevicesUri))
    ensures RequestField(r, "operation") == Some(JString("getCapabilityValue"))
    ensures RequestArg(r, "deviceId") == Some(JString(deviceId))
    ensures RequestArg(r, "capabilityId") == Some(JString(capabilityId))
  {
    var args := [("deviceId", JString(deviceId)), ("capabilityId", JString(capabilityId))];
    LookupSkip(args[0], [args[1]], "capabilityId");
    ApiRequest(DevicesUri, "getCapabilityValue", args)
  }

  function SetCapabilityValueRequest(deviceId: string, capabilityId: string, value: Json): (r: Json)
    ensures RequestField(r, "uri") == Some(JString(DevicesUri))
    ensures RequestField(r, "operation") == Some(JString("setCapabilityValue"))
    ensures RequestArg(r, "deviceId") == Some(JString(deviceId))
    ensures RequestArg(r, "capabilityId") == Some(JString(capabilityId))
    ensures RequestArg(r, "value") == Some(value)
  {
    var args := [("deviceId", JString(deviceId)), ("capabilityId", JString(capabilityId)), ("value", value)];
    LookupSkip(args[1], [args[2]], "value");
    LookupSkip(args[0], [args[1], args[2]], "value");
    LookupSkip(args[0], [args[1], args[2]], "capabilityId");
    ApiRequest(DevicesUri, "setCapabilityValue", args)
  }

  function GetDriversRequest(): (r: Json)
    ensures RequestField(r, "uri") == Some(JString(DriversUri))
    ensures RequestField(r, "operation") == Some(JString("getDrivers"))
    ensures RequestArg(r, "query") == Some(JObject([]))
  {
    ApiRequest(DriversUri, "getDrivers", [("query", JObject([]))])
  }

  /** `get_devices`: one device per value of the dict in `reply[1]`, in the
      dict's order. */
  function DevicesFromReply(reply: Json): (r: Option<seq<HomeyDevice>>)
    ensures r.Some? <==>
      && At(reply, 1).Some? && At(reply, 1).value.JObject?
      && forall i :: 0 <= i < |At(reply, 1).value.members| ==>
           DeviceFromJson(At(reply, 1).value.members[i].1).Some?
    ensures r.Some? ==>
      && |r.value| == |At(reply, 1).value.members|
      && forall i :: 0 <= i < |r.value| ==> Some(r.value[i]) == DeviceFromJson(At(reply, 1).value.members[i].1)
  {
    var byId :- At(reply, 1);
    var devices :- Values(byId);
    ListOf(devices, DeviceFromJson)
  }

  /** `get_device`: the device in `reply[1]`. */
  function DeviceFromReply(reply: Json): (r: Option<HomeyDevice>)
    ensures r.Some? <==> At(reply, 1).Some? && DeviceFromJson(At(reply, 1).value).Some?
    ensures r.Some? ==> reply.JArray? && r == DeviceFromJson(reply.items[1])
  {
    At(reply, 1).Bind(DeviceFromJson)
  }

  /** `get_device_capability_value`: `reply[1]`, whatever it is. */
  function CapabilityValueFromReply(reply: Json): (r: Option<Json>)
    ensures reply.JArray? ==> (r.Some? <==> |reply.items| >= 2) && (r.Some? ==> r.value == reply.items[1])
    ensures r.Some? ==> reply.JArray? || reply.JString?
  {
    At(reply, 1)
  }

  /** `set_device_capability_value` asserts that the whole decoded reply is
      truthy. */
  function SetAcknowledged(reply: Json): (acknowledged: bool)
    ensures reply.JArray? ==> (acknowledged <==> reply.items != [])
    ensures reply.JNull? ==> !acknowledged
    ensures reply.JBool? ==> acknowledged == reply.b
    ensures reply.JInt? ==> (acknowledged <==> reply.i != 0)
    ensures reply.JString? ==> (acknowledged <==> reply.s != "")
    ensures reply.JObject? ==> (acknowledged <==> reply.members != [])
  {
    Truthy(reply)
  }

  /** The check passes for every non-empty list, so also for a reply that
      reports `false` in either element. */
  lemma SetAcknowledgedByAnyNonEmptyList(items: seq<Json>)
    requires items != []
    ensures SetAcknowledged(JArray(items))
    ensures SetAcknowledged(JArray([JBool(false)])) && SetAcknowledged(JArray([JNull, JBool(false)]))
    ensures !SetAcknowledged(JArray([])) && !SetAcknowledged(JNull) && !SetAcknowledged(JBool(false))
  {
  }

  /** `get_drivers`: one driver per entry that iterating `reply[1]` yields, in
      order. */
  function DriversFromReply(reply: Json): (r: Option<seq<HomeyDriver>>)
    ensures r.Some? <==>
      && At(reply, 1).Some? && Iterate(At(reply, 1).value).Some?
      && forall i :: 0 <= i < |Iterate(At(reply, 1).value).value| ==>
           DriverFromJson(Iterate(At(reply, 1).value).value[i]).Some?
    ensures r.Some? ==>
      && |r.value| == |Iterate(At(reply, 1).value).value|
      && forall i :: 0 <= i < |r.value| ==> Some(r.value[i]) == DriverFromJson(Iterate(At(reply, 1).value).value[i])
  {
    var entries :- At(reply, 1);
    var drivers :- Iterate(entries);
    ListOf(drivers, DriverFromJson)
  }

  /** Iterating a dict yields its keys, which are strings, not driver
      records: a non-empty dict in `reply[1]` fails. */
  lemma DriversFromDictFail(first: Json, byId: seq<(string, Json)>)
    requires byId != []
    ensures DriversFromReply(JArray([first, JObject(byId)])).None?
  {
    var keys := Iterate(JObject(byId)).value;
    assert keys[0] == JString(byId[0].0);
    assert Item(keys[0], "id").None?;
    assert DriverFromJson(keys[0]).None?;
  }
}
