/** `HomeyClient` as a sequential state machine. The HTTP responses of the
    credential stages are method inputs; the web socket is a `Socket` whose
    inbound frames (what the server will send) are fixed when it opens and
    whose outbound frames are appended to. Every Python `assert` is a
    failed result; state assigned before the failing step stays assigned. */
module Client {
  import opened Wrappers
  import opened PyJson
  import opened Records
  import opened Wire
  import Chain
  import opened Api

  /** `HomeyConnectionCredentialInternals`. */
  class CredentialInternals {
    var accessToken: Json
    var refreshToken: Json
    var homeyId: Json
    var cloudRemoteUrl: Json
    var delegationToken: Json
    var cloudRemoteToken: Json

    function Snapshot(): Chain.Credentials
      reads this
    {
      Chain.Credentials(accessToken, refreshToken, homeyId, cloudRemoteUrl, delegationToken, cloudRemoteToken)
    }

    /** All six fields start as `None`. */
    constructor ()
      ensures Snapshot() == Chain.Empty
    {
      accessToken, refreshToken, homeyId := JNull, JNull, JNull;
      cloudRemoteUrl, delegationToken, cloudRemoteToken := JNull, JNull, JNull;
    }
  }

  /** The web-socket connection. `received` counts the inbound frames read
      so far; once closed it neither sends nor receives. */
  class Socket {
    const address: string
    const inbound: seq<string>
    var received: nat
    var outbound: seq<string>
    var closed: bool

    ghost predicate Valid()
      reads this
    {
      received <= |inbound|
    }

    constructor (address: string, inbound: seq<string>)
      ensures Valid()
      ensures this.address == address && this.inbound == inbound
      ensures received == 0 && outbound == [] && !closed
    {
      this.address := address;
      this.inbound := inbound;
      received := 0;
      outbound := [];
      closed := false;
    }

    /** `recv()`: the next inbound frame, or a failure once the connection is
        closed or the server has sent nothing more. */
    method Recv() returns (frame: Option<string>)
      requires Valid()
      modifies this`received
      ensures Valid()
      ensures frame.Some? <==> !closed && old(received) < |inbound|
      ensures frame.Some? ==> frame.value == inbound[old(received)] && received == old(received) + 1
      ensures frame.None? ==> received == old(received)
    {
      if closed || received == |inbound| {
        return None;
      }
      frame := Some(inbound[received]);
      received := received + 1;
    }

    /** `send(frame)`: appends the frame, unless the connection is closed. */
    method Send(frame: string) returns (ok: bool)
      modifies this`outbound
      ensures ok == !closed
      ensures outbound == if ok then old(outbound) + [frame] else old(outbound)
    {
      ok := !closed;
      if ok {
        outbound := outbound + [frame];
      }
    }

    /** `close()`; closing a closed connection changes nothing. */
    method Close()
      modifies this`closed
      ensures closed
    {
      closed := true;
    }
  }

  class HomeyClient {
    /** `json.dumps` / `json.loads`. */
    const codec: Codec
    const credentials: CredentialInternals
    /** `_websocket`: `null` until a connect opens one; never reset. */
    var websocket: Socket?

    ghost predicate Valid()
      reads this, websocket
    {
      websocket != null ==> websocket.Valid()
    }

    /** A fresh client: no credentials and no connection. */
    constructor (codec: Codec)
      ensures Valid() && this.codec == codec
      ensures fresh(credentials) && credentials.Snapshot() == Chain.Empty
      ensures websocket == null
    {
      this.codec := codec;
      credentials := new CredentialInternals();
      websocket := null;
    }

    /** `login`, given the token endpoint's decoded response. */
    method Login(response: Json) returns (ok: bool)
      modifies credentials
      ensures var s := Chain.Login(old(credentials.Snapshot()), response);
        ok == s.ok && credentials.Snapshot() == s.creds
    {
      var access := Item(response, "access_token");
      if access.None? {
        return false;
      }
      credentials.accessToken := access.value;
      var refresh := Item(response, "refresh_token");
      if refresh.None? {
        return false;
      }
      credentials.refreshToken := refresh.value;
      return true;
    }

    /** `_fetch_homey_cloud_remote_url`, given the decoded `/user/me` response. */
    method FetchHomeyCloudRemoteUrl(response: Json) returns (ok: bool)
      modifies credentials
      ensures var s := Chain.FetchHomeyCloudRemoteUrl(old(credentials.Snapshot()), response);
        ok == s.ok && credentials.Snapshot() == s.creds
    {
      if !Chain.UsableBearer(credentials.accessToken) {
        return false;
      }
      var hub := Chain.SelectedHub(response);
      if hub.None? {
        return false;
      }
      var id := Item(hub.value, "id");
      if id.None? {
        return false;
      }
      credentials.homeyId := id.value;
      var url := Item(hub.value, "remoteUrl");
      if url.None? {
        return false;
      }
      credentials.cloudRemoteUrl := url.value;
      return true;
    }

    /** `_fetch_delegation_token`, given the decoded response body. */
    method FetchDelegationToken(response: Json) returns (ok: bool)
      modifies credentials
      ensures var s := Chain.FetchDelegationToken(old(credentials.Snapshot()), response);
        ok == s.ok && credentials.Snapshot() == s.creds
    {
      if !Chain.UsableBearer(credentials.accessToken) {
        return false;
      }
      credentials.delegationToken := response;
      return true;
    }

    /** `_fetch_cloud_remote_token`, given the decoded response body. */
    method FetchCloudRemoteToken(response: Json) returns (ok: bool)
      modifies credentials
      ensures var s := Chain.FetchCloudRemoteToken(old(credentials.Snapshot()), response);
        ok == s.ok && credentials.Snapshot() == s.creds
    {
      if !Truthy(credentials.cloudRemoteUrl) || !Truthy(credentials.delegationToken) {
        return false;
      }
      if !credentials.cloudRemoteUrl.JString? {
        return false;
      }
      credentials.cloudRemoteToken := response;
      return true;
    }

    /** `_authenticate_to_cloud_remote`: the three stages in order. */
    method AuthenticateToCloudRemote(userMe: Json, delegation: Json, remoteLogin: Json) returns (ok: bool)
      modifies credentials
      ensures var s := Chain.Authenticate(old(credentials.Snapshot()), userMe, delegation, remoteLogin);
        ok == s.ok && credentials.Snapshot() == s.creds
    {
      ok := FetchHomeyCloudRemoteUrl(userMe);
      if !ok {
        return;
      }
      ok := FetchDelegationToken(delegation);
      if !ok {
        return;
      }
      ok := FetchCloudRemoteToken(remoteLogin);
    }

    /** `connect_to_cloud_remote_websocket_after_authentication`, given the
        frames the server sends on the new connection. */
    method ConnectToCloudRemoteWebsocketAfterAuthentication(serverFrames: seq<string>) returns (ok: bool)
      requires Valid()
      modifies this
      ensures Valid()
      ensures var c := credentials.Snapshot();
        if !Chain.ReadyToConnect(c) then
          !ok && websocket == old(websocket)
        else
          var t := Handshake(codec, serverFrames, HandshakeFrame(codec, c.cloudRemoteToken, c.homeyId));
          && websocket != null && fresh(websocket)
          && websocket.address == SocketAddress(c.cloudRemoteUrl.s)
          && websocket.inbound == serverFrames && !websocket.closed
          && ok == t.ok && websocket.received == t.received && websocket.outbound == t.sent
    {
      var c := credentials;
      if !Truthy(c.cloudRemoteUrl) || !Truthy(c.homeyId) || !c.cloudRemoteUrl.JString? {
        return false;
      }
      var ws := new Socket(SocketAddress(c.cloudRemoteUrl.s), serverFrames);
      websocket := ws;
      var hello := HandshakeFrame(codec, c.cloudRemoteToken, c.homeyId);
      var opening := ws.Recv();
      if opening.None? {
        return false;
      }
      opening := ws.Recv();
      if opening.None? {
        return false;
      }
      var _ := ws.Send(hello);
      var reply := ws.Recv();
      if reply.None? {
        return false;
      }
      if !(HandshakeAckPrefix <= reply.value) {
        return false;
      }
      var payload := codec.loads(reply.value[3..]);
      if payload.None? || !HandshakeAccepted(payload.value) {
        return false;
      }
      var _ := ws.Send(NamespaceConnect);
      var echo := ws.Recv();
      if echo.None? {
        return false;
      }
      ok := echo.value == NamespaceConnect;
    }

    /** `connect_to_cloud_remote`: authentication, then the socket connect. */
    method ConnectToCloudRemote(userMe: Json, delegation: Json, remoteLogin: Json, serverFrames: seq<string>)
      returns (ok: bool)
      requires Valid()
      modifies this, credentials
      ensures Valid()
      ensures var s := Chain.Authenticate(old(credentials.Snapshot()), userMe, delegation, remoteLogin);
        && credentials.Snapshot() == s.creds
        && (!s.ok ==> !ok && websocket == old(websocket))
        && (s.ok && !Chain.ReadyToConnect(s.creds) ==> !ok && websocket == old(websocket))
        && (s.ok && Chain.ReadyToConnect(s.creds) ==>
              var t := Handshake(codec, serverFrames, HandshakeFrame(codec, s.creds.cloudRemoteToken, s.creds.homeyId));
              && websocket != null && fresh(websocket)
              && websocket.address == SocketAddress(s.creds.cloudRemoteUrl.s)
              && websocket.inbound == serverFrames && !websocket.closed
              && ok == t.ok && websocket.received == t.received && websocket.outbound == t.sent)
    {
      ok := AuthenticateToCloudRemote(userMe, delegation, remoteLogin);
      if !ok {
        return;
      }
      ok := ConnectToCloudRemoteWebsocketAfterAuthentication(serverFrames);
    }

    /** The reply an API call with ack digit `ack` would accept next: none on
        a missing or closed connection or when the server sends nothing
        more. */
    ghost function PendingReply(ack: char): Option<Json>
      requires Valid()
      reads this, websocket
    {
      if websocket == null || websocket.closed || websocket.received == |websocket.inbound| then None
      else ParseReply(codec, websocket.inbound[websocket.received], ack)
    }

    /** What one API call does to the connection: on an open connection it
        appends exactly `frame` and reads at most one frame; on a closed one
        the send raises and nothing changes. */
    twostate predicate Exchanged(frame: string)
      reads this, websocket
    {
      && websocket == old(websocket)
      && (websocket != null ==>
            && websocket.closed == old(websocket.closed)
            && if old(websocket.closed) then
                 websocket.outbound == old(websocket.outbound) && websocket.received == old(websocket.received)
               else
                 && websocket.outbound == old(websocket.outbound) + [frame]
                 && websocket.received ==
                      if old(websocket.received) < |websocket.inbound| then old(websocket.received) + 1
                      else old(websocket.received))
    }

    /** The common part of the five calls: `assert self._websocket`, send the
        call frame, receive, check the reply prefix and decode the rest. */
    method Call(ack: char, request: Json) returns (reply: Option<Json>)
      requires Valid()
      modifies websocket
      ensures Valid() && Exchanged(CallFrame(codec, ack, request))
      ensures reply == old(PendingReply(ack))
    {
      if websocket == null {
        return None;
      }
      var sent := websocket.Send(CallFrame(codec, ack, request));
      if !sent {
        return None;
      }
      var frame := websocket.Recv();
      if frame.None? {
        return None;
      }
      reply := ParseReply(codec, frame.value, ack);
    }

    /** `get_devices`. */
    method GetDevices() returns (devices: Option<seq<HomeyDevice>>)
      requires Valid()
      modifies websocket
      ensures Valid() && Exchanged(CallFrame(codec, GetDevicesAck, GetDevicesRequest()))
      ensures devices == old(PendingReply(GetDevicesAck)).Bind(DevicesFromReply)
    {
      var reply := Call(GetDevicesAck, GetDevicesRequest());
      devices := reply.Bind(DevicesFromReply);
    }

    /** `get_device`. */
    method GetDevice(deviceId: string) returns (device: Option<HomeyDevice>)
      requires Valid()
      modifies websocket
      ensures Valid() && Exchanged(CallFrame(codec, GetDeviceAck, GetDeviceRequest(deviceId)))
      ensures device == old(PendingReply(GetDeviceAck)).Bind(DeviceFromReply)
    {
      var reply := Call(GetDeviceAck, GetDeviceRequest(deviceId));
      device := reply.Bind(DeviceFromReply);
    }

    /** `get_device_capability_value`. */
    method GetDeviceCapabilityValue(deviceId: string, capabilityId: string) returns (value: Option<Json>)
      requires Valid()
      modifies websocket
      ensures Valid()
      ensures Exchanged(CallFrame(codec, GetCapabilityValueAck, GetCapabilityValueRequest(deviceId, capabilityId)))
      ensures value == old(PendingReply(GetCapabilityValueAck)).Bind(CapabilityValueFromReply)
    {
      var reply := Call(GetCapabilityValueAck, GetCapabilityValueRequest(deviceId, capabilityId));
      value := reply.Bind(CapabilityValueFromReply);
    }

    /** `set_device_capability_value`: succeeds when the decoded reply is
        truthy. */
    method SetDeviceCapabilityValue(deviceId: string, capabilityId: string, value: Json) returns (ok: bool)
      requires Valid()
      modifies websocket
      ensures Valid()
      ensures Exchanged(CallFrame(codec, SetCapabilityValueAck, SetCapabilityValueRequest(deviceId, capabilityId, value)))
      ensures ok <==> old(PendingReply(SetCapabilityValueAck)).Some? && SetAcknowledged(old(PendingReply(SetCapabilityValueAck)).value)
    {
      var reply := Call(SetCapabilityValueAck, SetCapabilityValueRequest(deviceId, capabilityId, value));
      ok := reply.Some? && SetAcknowledged(reply.value);
    }

    /** `get_drivers`. */
    method GetDrivers() returns (drivers: Option<seq<HomeyDriver>>)
      requires Valid()
      modifies websocket
      ensures Valid() && Exchanged(CallFrame(codec, GetDriversAck, GetDriversRequest()))
      ensures drivers == old(PendingReply(GetDriversAck)).Bind(DriversFromReply)
    {
      var reply := Call(GetDriversAck, GetDriversRequest());
      drivers := reply.Bind(DriversFromReply);
    }

    /** `disconnect`: requires a connection and closes it; the client keeps
        the closed connection. */
    method Disconnect() returns (ok: bool)
      requires Valid()
      modifies websocket
      ensures Valid() && websocket == old(websocket)
      ensures ok <==> websocket != null
      ensures websocket != null ==>
        && websocket.closed
        && websocket.received == old(websocket.received)
        && websocket.outbound == old(websocket.outbound)
    {
      if websocket == null {
        return false;
      }
      websocket.Close();
      return true;
    }
  }

  const ScenarioToken := JObject([("access_token", JString("AT")), ("refresh_token", JString("RT"))])
  const ScenarioHub := JObject([("platform", JString("cloud")), ("id", JString("H1")), ("remoteUrl", JString("https://h1"))])
  const ScenarioUserMe := JObject([("homeys", JArray([ScenarioHub]))])
  const ScenarioHandshakeAck := JArray([JNull, JObject([("success", JBool(true))])])
  const ScenarioWriteAck := JArray([JNull, JBool(true)])

  /** The lookups the scenario's credential chain performs. */
  lemma ScenarioLookups()
    ensures Item(ScenarioToken, "access_token") == Some(JString("AT"))
    ensures Item(ScenarioToken, "refresh_token") == Some(JString("RT"))
    ensures Chain.SelectedHub(ScenarioUserMe) == Some(ScenarioHub)
    ensures Item(ScenarioHub, "id") == Some(JString("H1"))
    ensures Item(ScenarioHub, "remoteUrl") == Some(JString("https://h1"))
  {
    assert Item(ScenarioHub, "platform") == Some(JString("cloud"));
  }

  /** The scenario hub's frames complete the handshake. */
  lemma ScenarioHandshake(codec: Codec, hello: string)
    requires RoundTrips(codec)
    ensures Handshake(codec, ScenarioFrames(codec), hello).ok
  {
    var frame := HandshakeAckPrefix + codec.dumps(ScenarioHandshakeAck);
    assert frame[3..] == codec.dumps(ScenarioHandshakeAck);
    assert DistinctKeys(ScenarioHandshakeAck.items[1]);
    assert codec.loads(codec.dumps(ScenarioHandshakeAck)) == Some(ScenarioHandshakeAck);
    assert ScenarioFrames(codec)[2] == frame;
  }

  function ScenarioFrames(codec: Codec): seq<string> {
    ["0{}", "40", HandshakeAckPrefix + codec.dumps(ScenarioHandshakeAck), NamespaceConnect,
     ReplyPrefix(SetCapabilityValueAck) + codec.dumps(ScenarioWriteAck)]
  }

  /** A fresh client logs in and runs the credential chain. */
  method AuthenticateScenario(codec: Codec) returns (client: HomeyClient)
    ensures fresh(client) && fresh(client.credentials) && client.Valid()
    ensures client.codec == codec && client.websocket == null
    ensures client.credentials.Snapshot() == Chain.Credentials(
      JString("AT"), JString("RT"), JString("H1"), JString("https://h1"), JString("DT"), JString("ST"))
  {
    client := new HomeyClient(codec);
    ScenarioLookups();
    var ok := client.Login(ScenarioToken);
    assert ok;
    ok := client.AuthenticateToCloudRemote(ScenarioUserMe, JString("DT"), JString("ST"));
    assert ok;
  }

  /** It then completes the handshake with a cooperating hub. */
  method ConnectScenario(codec: Codec) returns (client: HomeyClient)
    requires RoundTrips(codec)
    ensures fresh(client) && client.Valid() && client.codec == codec
    ensures client.websocket != null && fresh(client.websocket)
    ensures client.websocket.inbound == ScenarioFrames(codec)
    ensures client.websocket.received == 4 && !client.websocket.closed
    ensures |client.websocket.outbound| == 2
  {
    client := AuthenticateScenario(codec);
    var c := client.credentials.Snapshot();
    assert Chain.ReadyToConnect(c);
    var hello := HandshakeFrame(codec, c.cloudRemoteToken, c.homeyId);
    ScenarioHandshake(codec, hello);
    var ok := client.ConnectToCloudRemoteWebsocketAfterAuthentication(ScenarioFrames(codec));
    assert ok;
  }

  /** Then a capability write acknowledged with `[null, true]` succeeds and
      sends exactly one more frame. */
  method SetCapabilityScenario(codec: Codec)
    requires RoundTrips(codec)
  {
    var client := ConnectScenario(codec);
    var ws := client.websocket;
    assert DistinctKeys(ScenarioWriteAck);
    ReplyRoundTrip(codec, SetCapabilityValueAck, ScenarioWriteAck);
    assert ws.inbound[4] == ReplyPrefix(SetCapabilityValueAck) + codec.dumps(ScenarioWriteAck);
    var ok := client.SetDeviceCapabilityValue("lamp", "onoff", JBool(true));
    assert ok;
    assert |ws.outbound| == 3;
  }
}
