# homey-wss-python in Dafny

A model of `HomeyClient`, the client in `homey_wss_python` that logs in to
the Athom cloud, obtains a session token for a Homey hub through its cloud
relay and then talks to the hub over a Socket.IO web socket. The client is
modelled as a sequential state machine with the network taken out.

- **Credential chain** (`chain.dfy`, `client.dfy`). There are six credential
  fields: access token, refresh token, hub id, remote URL, delegation token
  and remote session token. `login` fills the first two. Hub discovery picks
  the first hub record whose platform is `"cloud"` and stores its id and
  remote URL. The delegation token and the remote session token follow.
  Each stage is a pure function on a snapshot of the six fields. Each
  stage method of `HomeyClient` is proved to update the fields of its
  `CredentialInternals` object exactly as that function says. The HTTP response of each stage
  is a method input.
- **Socket handshake and API framing** (`wire.dfy`, `api.dfy`,
  `client.dfy`). `Socket` is a class. It holds the inbound frames the server
  will send, read in order, and the outbound frames the client has sent,
  appended to. The handshake is specified step by step by `Wire.Handshake`.
  The five API calls share `HomeyClient.Call`. Each call sends
  `"42/api,"` + its literal ack digit + the request. It accepts only a reply
  starting with `"43/api,"` + the same digit, and decodes the text after
  those eight characters.
- **Records** (`records.dfy`). The constructors of `HomeyDeviceCapability`,
  `HomeyDevice` and `HomeyDriver` are functions over decoded JSON. They
  include the derived fields: optional icon paths and the first
  connectivity entry.
- **Python values** (`pyjson.dfy`). `Json` is what `json.loads` returns.
  The file also defines the Python operations the client applies to such
  values: truthiness, `x[key]`, `x[i]`, `len`, iteration, `.values()` and
  `str()`. Each operation that raises in Python gives `None` here.
  `json.dumps` and `json.loads` are a `Codec` of two functions passed to the
  client. Where a property needs the codec to decode what it encodes, it
  says so (`RoundTrips`).

Every `assert` in the client becomes a failed result: `false` or `None`. A
stage that fails part-way keeps whatever it had already assigned, as the
Python does. For example, `login` stores the access token before it looks up
the refresh token.

The model follows what the code does, including where a client of this kind
might be expected to behave otherwise:
- Ack ids are literal digits 0–4, one per call site, not a counter. At most
  one call is outstanding, and its reply must be the next inbound frame.
- There are no typed errors. The client fails by raising whatever Python
  raises on the way: a failed assertion, KeyError, TypeError, IndexError,
  AttributeError, the RuntimeError that a StopIteration from `next` becomes,
  a JSON decoding error, ValueError, or a closed-connection error. The model
  treats every raised exception as one failure (`false` or `None`) and does
  not tell them apart.
- `set_device_capability_value` asserts that the whole decoded reply is
  truthy, not its second element. So any non-empty list passes, including
  `[false]` and `[null, false]` (`Api.SetAcknowledgedByAnyNonEmptyList`).
- The handshake payload's key is `"homeyId"`. The socket connect does not
  check that the remote session token is set; an unset one is sent as
  `null`.
- A failed handshake leaves `_websocket` assigned. Later API calls then
  send on that connection; the client has no state that says the handshake
  completed.
- `disconnect` closes the socket but does not clear `_websocket`. A later
  call passes `assert self._websocket` and then fails when it sends on the
  closed connection.

## Model

| member | source | states |
|---|---|---|
| `Client.CredentialInternals.constructor` | src/homey_wss_python/__init__.py:52-61 | all six credential fields start as None |
| `Client.HomeyClient.constructor` | src/homey_wss_python/__init__.py:64-66 | a fresh client has empty credentials and no socket |
| `Chain.Login` | src/homey_wss_python/__init__.py:81-84 | login completes iff the response has both "access_token" and "refresh_token"; only those two fields change; the access token is stored even when the refresh lookup then fails |
| `Client.HomeyClient.Login` | src/homey_wss_python/__init__.py:68-84 | the method leaves the fields and result exactly as `Chain.Login` does |
| `Chain.FirstCloud` | src/homey_wss_python/__init__.py:98 | a selected hub is a member of the list and its platform is "cloud" |
| `Chain.FirstCloudSpec` | src/homey_wss_python/__init__.py:98 | the selection returns hub h iff h is at some index k, is a cloud hub, and every record before k names a platform other than "cloud" |
| `Chain.NoCloudHub` | src/homey_wss_python/__init__.py:98 | with no cloud hub in the list, the selection fails |
| `Chain.FetchHomeyCloudRemoteUrl` | src/homey_wss_python/__init__.py:86-101 | needs a truthy string access token: with a falsy one the assert fails and with a non-string one the header concatenation raises, and either way nothing changes; completes iff the first cloud hub exists and has "id" and "remoteUrl", storing exactly those two; a cloud hub with "id" but no "remoteUrl" fails with the id already stored, and every other failure stores nothing; only the hub id and URL ever change |
| `Chain.UsableBearer` | src/homey_wss_python/__init__.py:87-92 | an access token can be used in the "Bearer " header iff it is a non-empty string |
| `Chain.SelectedHub` | src/homey_wss_python/__init__.py:97-98 | a selected hub is one of the records that iterating "homeys" yields and is a cloud hub; without "homeys" nothing is selected |
| `Chain.DiscoveryStoresFirstCloudHub` | src/homey_wss_python/__init__.py:97-101 | when "homeys" is a list whose first cloud hub sits at index k (every record before it names another platform), that hub is the one selected, and discovery completes storing exactly its "id" and "remoteUrl", whatever cloud hubs follow |
| `Chain.DiscoveryWithoutCloudHub` | src/homey_wss_python/__init__.py:97-101 | discovery over hubs none of which is a cloud hub fails and stores nothing, whatever their platforms |
| `Client.HomeyClient.FetchHomeyCloudRemoteUrl` | src/homey_wss_python/__init__.py:86-101 | the method leaves the fields and result exactly as the discovery function does |
| `Chain.FetchDelegationToken` | src/homey_wss_python/__init__.py:103-115 | completes iff the access token is a truthy string; then stores the raw response body as the delegation token and nothing else |
| `Client.HomeyClient.FetchDelegationToken` | src/homey_wss_python/__init__.py:103-115 | the method follows `Chain.FetchDelegationToken` |
| `Chain.FetchCloudRemoteToken` | src/homey_wss_python/__init__.py:117-129 | completes iff the remote URL (a string) and the delegation token are truthy; then stores the raw body as the remote session token and nothing else |
| `Client.HomeyClient.FetchCloudRemoteToken` | src/homey_wss_python/__init__.py:117-129 | the method follows `Chain.FetchCloudRemoteToken` |
| `Chain.Authenticate` | src/homey_wss_python/__init__.py:131-134 | discovery, then delegation, then remote token; a failed stage is the outcome and later stages do not run; on success the URL and the delegation token are truthy and both tokens come from their responses; login's tokens never change |
| `Client.HomeyClient.AuthenticateToCloudRemote` | src/homey_wss_python/__init__.py:131-134 | the method follows `Chain.Authenticate` |
| `Chain.ReadyToConnect` | src/homey_wss_python/__init__.py:137-141 | the socket connect may proceed iff the remote URL is a non-empty string and the hub id is truthy |
| `Chain.FreshClientNeedsLogin` | src/homey_wss_python/__init__.py:87-138 | from empty credentials no stage after login can complete, the chain fails and the socket connect is refused |
| `Chain.AuthenticatedReadyToConnect` | src/homey_wss_python/__init__.py:137-138 | after a completed chain the socket connect's preconditions hold iff the stored hub id is truthy |
| `Chain.LoginThenDiscovery` | src/homey_wss_python/__init__.py:81-101 | login with tokens AT/RT, then discovery over a local hub followed by cloud hub H1 at https://h1, stores exactly those values |
| `Wire.ReplaceAllAbsent` | src/homey_wss_python/__init__.py:141 | `str.replace` leaves a string without an occurrence unchanged |
| `Wire.SocketAddress` | src/homey_wss_python/__init__.py:141 | the socket address always ends with the Socket.IO path "/socket.io/?EIO=3&transport=websocket" |
| `Wire.SocketAddressOfHttpsUrl` | src/homey_wss_python/__init__.py:141 | the socket address of "https://" + host is "wss://" + host + "/socket.io/?EIO=3&transport=websocket" |
| `Wire.SocketAddressOfOtherUrl` | src/homey_wss_python/__init__.py:141 | a URL without "https://" keeps its scheme and gets the Socket.IO path appended |
| `Wire.Handshake` | src/homey_wss_python/__init__.py:144-166 | the handshake succeeds iff there are at least 4 inbound frames, frame 2 starts with "430", the JSON after it decodes and has `[1]["success"]` exactly true, and frame 3 is exactly "40/api,"; it sends the "420" frame after two discarded frames, then sends "40/api," exactly when the reply is accepted; it reads the two opening frames, the reply and, after "40/api,", the echo, as far as the server provides them, and stops at the first failure |
| `Wire.HandshakeFrameCarriesCredentials` | src/homey_wss_python/__init__.py:147-155 | the handshake frame (`Wire.HandshakeFrame` of `Wire.HandshakeRequest`) starts with "420", and with a round-tripping codec the text after it decodes to `["handshakeClient", {...}]`: a list of exactly two elements whose dict has exactly two members, the remote session token under "token" and the hub id under "homeyId" |
| `Wire.HandshakeAccepted` | src/homey_wss_python/__init__.py:162 | a decoded handshake reply is accepted iff it is a list of at least two elements whose second is a dict with "success" exactly true |
| `Wire.AcceptedOnlyIfExactlyTrue` | src/homey_wss_python/__init__.py:162 | a success value is accepted iff it is the boolean true |
| `Wire.HandshakeRejected` | src/homey_wss_python/__init__.py:158-164 | an unaccepted reply fails the handshake and the namespace connect is never sent |
| `Wire.HandshakeAcceptedByHub` | src/homey_wss_python/__init__.py:157-166 | with a round-tripping codec, two opening frames, the ack `[null, {"success": true}]` and the echo complete the handshake |
| `Client.HomeyClient.ConnectToCloudRemoteWebsocketAfterAuthentication` | src/homey_wss_python/__init__.py:136-166 | without a truthy string URL and a truthy hub id nothing happens; otherwise a new socket at the rewritten address whose reads, sends and result are those of `Wire.Handshake` |
| `Client.HomeyClient.ConnectToCloudRemote` | src/homey_wss_python/__init__.py:168-170 | the credentials end as `Chain.Authenticate` leaves them; a failed chain, or a completed one that leaves the client not ready to connect, opens no socket and fails; a completed, ready chain always runs the socket connect, whose new socket's address, reads, sends and result are those of `Wire.Handshake` |
| `Client.Socket.constructor` | src/homey_wss_python/__init__.py:140-142 | a new connection at the given address with the server's frames, nothing read and nothing sent, open |
| `Client.Socket.Recv` | src/homey_wss_python/__init__.py:144-145 | returns the next inbound frame and advances by one, or fails on a closed or exhausted connection |
| `Client.Socket.Send` | src/homey_wss_python/__init__.py:147-155 | appends exactly the frame unless closed |
| `Client.Socket.Close` | src/homey_wss_python/__init__.py:298 | the socket is closed, idempotently |
| `Wire.ParseReply` | src/homey_wss_python/__init__.py:189-192 | a reply is accepted iff the frame is "43/api," + the same ack digit followed by text that decodes; the result is the decoding of the text after those 8 characters |
| `Wire.ReplyRoundTrip` | src/homey_wss_python/__init__.py:189-192 | with a codec that round-trips values whose dicts have distinct keys, a reply written for the awaited digit decodes back to its payload |
| `Wire.ReplyToOtherAckRefused` | src/homey_wss_python/__init__.py:190 | a reply carrying another ack digit is refused whatever follows |
| `Wire.CallFrameCarriesRequest` | src/homey_wss_python/__init__.py:175-192 | a call frame (`Wire.CallFrame`) is the 8-character call prefix followed by text that a round-tripping codec decodes back to the request |
| `Wire.PrefixesIdentifyTheAck` | src/homey_wss_python/__init__.py:175-190 | call and reply prefixes (`Wire.CallPrefix`, `Wire.ReplyPrefix`) are 8 characters long, equal only for the same ack digit, and a call prefix is never a reply prefix |
| `Wire.CallIsNotReply` | src/homey_wss_python/__init__.py:175-190 | a call frame is never accepted as a reply |
| `Client.HomeyClient.Call` | src/homey_wss_python/__init__.py:173-192 | with no socket nothing happens; on a closed socket nothing is sent; otherwise exactly one call frame is appended and at most one frame read, and the result is the next inbound frame parsed for this ack digit |
| `Client.HomeyClient.GetDevices` | src/homey_wss_python/__init__.py:172-194 | sends one frame with ack digit 0 and the getDevices request; the result is the pending reply turned into devices |
| `Client.HomeyClient.GetDevice` | src/homey_wss_python/__init__.py:196-219 | ack digit 1, the getDevice request with the id; the result is the device in the reply |
| `Client.HomeyClient.GetDeviceCapabilityValue` | src/homey_wss_python/__init__.py:221-244 | ack digit 2, the getCapabilityValue request; the result is `reply[1]` |
| `Client.HomeyClient.SetDeviceCapabilityValue` | src/homey_wss_python/__init__.py:246-268 | ack digit 3, the setCapabilityValue request with the value; succeeds iff the reply is accepted and truthy |
| `Client.HomeyClient.GetDrivers` | src/homey_wss_python/__init__.py:271-293 | ack digit 4, the getDrivers request; the result is the pending reply turned into drivers |
| `Client.HomeyClient.Disconnect` | src/homey_wss_python/__init__.py:295-298 | fails without a socket; otherwise closes it, changing no frames, and keeps it |
| `Api.ApiRequest` | src/homey_wss_python/__init__.py:176-186 | every API request is `["api", {...}]`, a list of exactly two elements; the body has exactly three members, naming the URI and the operation; the args dict has one member more than the call's own arguments: "$validate" true, and under every other key exactly the call's own argument |
| `Api.GetDevicesRequest` | src/homey_wss_python/__init__.py:176-186 | the devices URI, operation "getDevices", and an empty "query" |
| `Api.GetDeviceRequest` | src/homey_wss_python/__init__.py:200-211 | the devices URI, operation "getDevice", an empty "query" and the device id under "id" |
| `Api.GetCapabilityValueRequest` | src/homey_wss_python/__init__.py:225-236 | the devices URI, operation "getCapabilityValue", and the device and capability ids |
| `Api.SetCapabilityValueRequest` | src/homey_wss_python/__init__.py:250-262 | the devices URI, operation "setCapabilityValue", the device and capability ids and the value as given |
| `Api.GetDriversRequest` | src/homey_wss_python/__init__.py:275-285 | the drivers URI, operation "getDrivers", and an empty "query" |
| `Api.DevicesFromReply` | src/homey_wss_python/__init__.py:192-194 | succeeds iff `reply[1]` is a dict all of whose values are devices; one device per value, in order |
| `Api.DeviceFromReply` | src/homey_wss_python/__init__.py:217-219 | succeeds iff `reply[1]` exists and is a device record; the result is that device |
| `Api.CapabilityValueFromReply` | src/homey_wss_python/__init__.py:242-244 | for a list reply, the result is its second element, present iff the list has two |
| `Api.SetAcknowledged` | src/homey_wss_python/__init__.py:268 | the reply is acknowledged iff it is truthy in Python: a non-empty list, dict or string, a non-zero number or true; null is not |
| `Api.SetAcknowledgedByAnyNonEmptyList` | src/homey_wss_python/__init__.py:268 | any non-empty list reply is accepted, including `[false]`; an empty list, null and false are not |
| `Api.DriversFromReply` | src/homey_wss_python/__init__.py:291-293 | succeeds iff iterating `reply[1]` yields only driver records; one driver per entry, in order |
| `Api.DriversFromDictFail` | src/homey_wss_python/__init__.py:293 | a non-empty dict in `reply[1]` fails, since iterating it yields key strings |
| `Records.CapabilityFromJson` | src/homey_wss_python/__init__.py:7-15 | succeeds iff all seven keys are present; the flags are the truthiness of "getable"/"setable" and the value is copied as is |
| `Records.Capabilities` | src/homey_wss_python/__init__.py:25-27 | succeeds iff "capabilitiesObj" is a dict all of whose values are capabilities; one capability per value, in order |
| `Records.DeviceFromJson` | src/homey_wss_python/__init__.py:17-34 | succeeds iff all fourteen keys are present, the capabilities decode and "flags" is iterable; the flags are `list()` of that value, settings and energy are copied as they are, and the ui indicator is `str()` of its value (so "None" for null) |
| `Records.IconUrlPath` | src/homey_wss_python/__init__.py:41-43 | a falsy icon object gives no path; a truthy one gives `str()` of its "url", and fails without one |
| `Records.ConnectivityType` | src/homey_wss_python/__init__.py:50 | falsy: no type; a non-empty list: `str()` of its first entry; a non-empty string: its first character; a truthy number, true, or non-empty dict: a failure |
| `Records.DriverFromJson` | src/homey_wss_python/__init__.py:36-50 | succeeds iff all thirteen keys are present and the icon paths and connectivity type succeed; the derived fields are those functions' results |
| `PyJson.ListOf` | src/homey_wss_python/__init__.py:25-27 | a list comprehension over a raising constructor succeeds iff every element succeeds, and then gives one result per element, in order |
| `PyJson.Lookup` | src/homey_wss_python/__init__.py:9-15 | a dict lookup succeeds iff the key is present, and returns a value stored under that key |

## Left out

- HTTP requests: the endpoints, headers, the OAuth client id and secret, and
  the email and password, which only go into the request. Each stage takes
  its decoded response body as an input. A body that is not JSON, which
  makes `response.json()` raise, is not modelled.
- The `websockets` library: opening the connection (and its failures),
  `async`/`await` scheduling and bytes frames. A `recv` that would wait
  forever because the server sends nothing more is a failed call here.
- `json.dumps` and `json.loads`: their format and parsing are not modelled.
  They are a `Codec` parameter, and some properties require that it decodes
  what it encodes, for values whose dicts have distinct keys
  (`PyJson.RoundTrips`).
- Floating-point JSON numbers: the model's JSON numbers are integers.
- `PyJson.Repr` escapes backslash, quotes, `\n`, `\r`, `\t` and ASCII control
  characters as Python does. Non-ASCII characters that Python 3 would escape
  are kept.
- Any non-dict argument of `dict(...)` for "capabilitiesObj", such as a list
  of pairs or the empty string (which `dict` turns into `{}`): only a dict is
  accepted. Repeated keys in a JSON object are not modelled; an object's keys
  are taken to be distinct, as in a Python dict.
- `examples/basic.py`, the interactive example program.
- `Records.CapabilityFromJson`, `Records.DeviceFromJson` and
  `Records.DriverFromJson`: the contracts state when construction succeeds
  and what the derived fields are, but not every field copy. Unstated are
  "type", "title" and "lastUpdated" of a capability; "id", "driverId",
  "driverUri", "name", "class", "virtualClass", "ready" and "hidden" of a
  device; and the plain `str()`/`bool()` fields of a driver. Those are left
  to the bodies.
- Which exception the client raises: every raised exception is one failure.
