/** The credential chain as functions on a snapshot of the six credential
    fields: password login, hub discovery, the delegation token and the
    remote session token. Each stage answers whether it completed and the
    fields as the stage leaves them; a stage that raises half-way keeps the
    fields it had already assigned, as Python does. The HTTP responses are
    inputs; the requests themselves are not modelled. */
module Chain {
  import opened Wrappers
  import opened PyJson

  /** `HomeyConnectionCredentialInternals`: every field starts as `None`
      (JSON null) and holds whatever JSON value its stage stored. */
  datatype Credentials = Credentials(
    accessToken: Json,
    refreshToken: Json,
    homeyId: Json,
    cloudRemoteUrl: Json,
    delegationToken: Json,
    cloudRemoteToken: Json)

  const Empty := Credentials(JNull, JNull, JNull, JNull, JNull, JNull)

  /** The outcome of one stage. */
  datatype Stage = Stage(ok: bool, creds: Credentials)

  /** `login`: stores "access_token", then "refresh_token", from the token
      response; a missing key raises after the keys before it were stored. */
  function Login(c: Credentials, response: Json): (s: Stage)
    ensures s.ok <==> Item(response, "access_token").Some? && Item(response, "refresh_token").Some?
    ensures s.creds == c.(
      accessToken := Item(response, "access_token").GetOr(c.accessToken),
      refreshToken :=
        if s.ok then Item(response, "refresh_token").value else c.refreshToken)
  {
    match Item(response, "access_token")
    case None => Stage(false, c)
    case Some(access) =>
      var c1 := c.(accessToken := access);
      match Item(response, "refresh_token")
      case None => Stage(false, c1)
      case Some(refresh) => Stage(true, c1.(refreshToken := refresh))
  }

  /** `assert token` followed by `"Bearer " + token`: the token must be truthy
      and, for the concatenation not to raise, a string. */
  function UsableBearer(token: Json): (usable: bool)
    ensures usable <==> token.JString? && token.s != ""
  {
    Truthy(token) && token.JString?
  }

  /** The record's "platform" is "cloud". */
  predicate IsCloud(hub: Json) {
    Item(hub, "platform") == Some(JString("cloud"))
  }

  /** `next(h for h in hubs if h["platform"] == "cloud")`: the first cloud
      hub. The scan stops there; a record before it without a "platform"
      raises, and so does a list with no cloud hub (StopIteration). */
  function FirstCloud(hubs: seq<Json>): (r: Option<Json>)
    ensures r.Some? ==> r.value in hubs && IsCloud(r.value)
  {
    if hubs == [] then None
    else
      match Item(hubs[0], "platform")
      case None => None
      case Some(platform) =>
        if platform == JString("cloud") then Some(hubs[0]) else FirstCloud(hubs[1..])
  }

  /** Hub `k` is the one the scan stops at. */
  ghost predicate FirstCloudAt(hubs: seq<Json>, k: int) {
    && 0 <= k < |hubs|
    && IsCloud(hubs[k])
    && forall i :: 0 <= i < k ==> Item(hubs[i], "platform").Some? && !IsCloud(hubs[i])
  }

  /** The selection picks exactly the first cloud hub, provided every hub
      before it names a platform. */
  lemma {:induction false} FirstCloudSpec(hubs: seq<Json>, hub: Json)
    ensures FirstCloud(hubs) == Some(hub) <==> exists k :: FirstCloudAt(hubs, k) && hubs[k] == hub
  {
    if hubs != [] {
      FirstCloudSpec(hubs[1..], hub);
      if FirstCloud(hubs) == Some(hub) {
        if !IsCloud(hubs[0]) {
          var k :| FirstCloudAt(hubs[1..], k) && hubs[1..][k] == hub;
          assert FirstCloudAt(hubs, k + 1);
        } else {
          assert FirstCloudAt(hubs, 0);
        }
      }
      if exists k :: FirstCloudAt(hubs, k) && hubs[k] == hub {
        var k :| FirstCloudAt(hubs, k) && hubs[k] == hub;
        if k > 0 {
          assert Item(hubs[0], "platform").Some? && !IsCloud(hubs[0]);
          assert FirstCloudAt(hubs[1..], k - 1);
        }
      }
    }
  }

  /** Without a cloud hub the selection fails, whatever other platforms the
      list holds. */
  lemma NoCloudHub(hubs: seq<Json>)
    requires forall i :: 0 <= i < |hubs| ==> !IsCloud(hubs[i])
    ensures FirstCloud(hubs).None?
  {
  }

  /** The hub record discovery settles on: the first cloud entry of the
      account's "homeys". */
  function SelectedHub(response: Json): (r: Option<Json>)
    ensures Item(response, "homeys").None? ==> r.None?
    ensures r.Some? ==>
      && Item(response, "homeys").Some?
      && Iterate(Item(response, "homeys").value).Some?
      && r.value in Iterate(Item(response, "homeys").value).value
      && IsCloud(r.value)
  {
    var homeys :- Item(response, "homeys");
    var hubs :- Iterate(homeys);
    FirstCloud(hubs)
  }

  /** `_fetch_homey_cloud_remote_url`: requires the access token, then stores
      the selected hub's "id" and, after it, its "remoteUrl". */
  function FetchHomeyCloudRemoteUrl(c: Credentials, response: Json): (s: Stage)
    ensures !UsableBearer(c.accessToken) ==> s == Stage(false, c)
    ensures s.ok <==>
      && UsableBearer(c.accessToken)
      && SelectedHub(response).Some?
      && Item(SelectedHub(response).value, "id").Some?
      && Item(SelectedHub(response).value, "remoteUrl").Some?
    ensures s.ok ==> s.creds == c.(
      homeyId := Item(SelectedHub(response).value, "id").value,
      cloudRemoteUrl := Item(SelectedHub(response).value, "remoteUrl").value)
    ensures s.creds.cloudRemoteUrl == c.cloudRemoteUrl || s.ok
    ensures s.creds == c.(homeyId := s.creds.homeyId, cloudRemoteUrl := s.creds.cloudRemoteUrl)
    ensures SelectedHub(response).None? ==> !s.ok && s.creds == c
    // a failure after the id was stored keeps it; any other failure stores nothing
    ensures !s.ok ==>
      || s.creds == c
      || (&& UsableBearer(c.accessToken)
          && SelectedHub(response).Some?
          && Item(SelectedHub(response).value, "id").Some?
          && s.creds == c.(homeyId := Item(SelectedHub(response).value, "id").value))
    ensures
      && UsableBearer(c.accessToken)
      && SelectedHub(response).Some?
      && Item(SelectedHub(response).value, "id").Some?
      && Item(SelectedHub(response).value, "remoteUrl").None?
      ==> !s.ok && s.creds == c.(homeyId := Item(SelectedHub(response).value, "id").value)
  {
    if !UsableBearer(c.accessToken) then Stage(false, c)
    else
      match SelectedHub(response)
      case None => Stage(false, c)
      case Some(hub) =>
        match Item(hub, "id")
        case None => Stage(false, c)
        case Some(id) =>
          var c1 := c.(homeyId := id);
          match Item(hub, "remoteUrl")
          case None => Stage(false, c1)
          case Some(url) => Stage(true, c1.(cloudRemoteUrl := url))
  }

  /** Discovery stores the id and remote URL of the first cloud hub in the
      account's "homeys", whatever cloud hubs follow it. */
  lemma DiscoveryStoresFirstCloudHub(c: Credentials, response: Json, hubs: seq<Json>, k: int)
    requires UsableBearer(c.accessToken) && Item(response, "homeys") == Some(JArray(hubs))
    requires FirstCloudAt(hubs, k)
    requires Item(hubs[k], "id").Some? && Item(hubs[k], "remoteUrl").Some?
    ensures SelectedHub(response) == Some(hubs[k])
    ensures FetchHomeyCloudRemoteUrl(c, response) == Stage(true, c.(
      homeyId := Item(hubs[k], "id").value,
      cloudRemoteUrl := Item(hubs[k], "remoteUrl").value))
  {
    FirstCloudSpec(hubs, hubs[k]);
  }

  /** Discovery over an account with no cloud hub fails and stores nothing,
      whatever other platforms its hubs have. */
  lemma DiscoveryWithoutCloudHub(c: Credentials, response: Json, hubs: seq<Json>)
    requires Item(response, "homeys") == Some(JArray(hubs))
    requires forall i :: 0 <= i < |hubs| ==> !IsCloud(hubs[i])
    ensures FetchHomeyCloudRemoteUrl(c, response) == Stage(false, c)
  {
    NoCloudHub(hubs);
  }

  /** `_fetch_delegation_token`: requires the access token; the raw response
      body is the delegation token. */
  function FetchDelegationToken(c: Credentials, response: Json): (s: Stage)
    ensures s.ok <==> UsableBearer(c.accessToken)
    ensures s.creds == if s.ok then c.(delegationToken := response) else c
  {
    if !UsableBearer(c.accessToken) then Stage(false, c)
    else Stage(true, c.(delegationToken := response))
  }

  /** `_fetch_cloud_remote_token`: requires the remote URL and the delegation
      token (the URL a string, as it is concatenated with the login path);
      the raw response body is the remote session token. */
  function FetchCloudRemoteToken(c: Credentials, response: Json): (s: Stage)
    ensures s.ok <==> Truthy(c.cloudRemoteUrl) && Truthy(c.delegationToken) && c.cloudRemoteUrl.JString?
    ensures s.creds == if s.ok then c.(cloudRemoteToken := response) else c
  {
    if !Truthy(c.cloudRemoteUrl) || !Truthy(c.delegationToken) || !c.cloudRemoteUrl.JString? then
      Stage(false, c)
    else
      Stage(true, c.(cloudRemoteToken := response))
  }

  /** `_authenticate_to_cloud_remote`: discovery, then the delegation token,
      then the remote session token; a stage runs only when the one before it
      completed, and the first failure is the outcome. */
  function Authenticate(c: Credentials, userMe: Json, delegation: Json, remoteLogin: Json): (s: Stage)
    ensures
      var d := FetchHomeyCloudRemoteUrl(c, userMe);
      var t := FetchDelegationToken(d.creds, delegation);
      && (!d.ok ==> s == d)
      && (d.ok && !t.ok ==> s == t)
      && (d.ok && t.ok ==> s == FetchCloudRemoteToken(t.creds, remoteLogin))
    // a completed chain leaves every field a later stage needs set
    ensures s.ok ==>
      && UsableBearer(s.creds.accessToken)
      && Truthy(s.creds.cloudRemoteUrl) && s.creds.cloudRemoteUrl.JString?
      && s.creds.delegationToken == delegation && Truthy(delegation)
      && s.creds.cloudRemoteToken == remoteLogin
    // the tokens from login are never touched
    ensures s.creds.accessToken == c.accessToken && s.creds.refreshToken == c.refreshToken
  {
    var d := FetchHomeyCloudRemoteUrl(c, userMe);
    if !d.ok then d
    else
      var t := FetchDelegationToken(d.creds, delegation);
      if !t.ok then t
      else FetchCloudRemoteToken(t.creds, remoteLogin)
  }

  /** `connect_to_cloud_remote_websocket_after_authentication` asserts the
      remote URL and the hub id, and calls `.replace` on the URL. */
  function ReadyToConnect(c: Credentials): (ready: bool)
    ensures ready <==> c.cloudRemoteUrl.JString? && c.cloudRemoteUrl.s != "" && Truthy(c.homeyId)
  {
    Truthy(c.cloudRemoteUrl) && Truthy(c.homeyId) && c.cloudRemoteUrl.JString?
  }

  /** On a fresh client only login can complete: every later stage finds its
      inputs unset. */
  lemma FreshClientNeedsLogin(userMe: Json, delegation: Json, remoteLogin: Json)
    ensures !FetchHomeyCloudRemoteUrl(Empty, userMe).ok
    ensures !FetchDelegationToken(Empty, delegation).ok
    ensures !FetchCloudRemoteToken(Empty, remoteLogin).ok
    ensures !ReadyToConnect(Empty)
    ensures !Authenticate(Empty, userMe, delegation, remoteLogin).ok
  {
  }

  /** After a completed chain the socket connect can proceed exactly when
      the stored hub id is truthy. */
  lemma AuthenticatedReadyToConnect(c: Credentials, userMe: Json, delegation: Json, remoteLogin: Json)
    requires Authenticate(c, userMe, delegation, remoteLogin).ok
    ensures
      var s := Authenticate(c, userMe, delegation, remoteLogin);
      ReadyToConnect(s.creds) <==> Truthy(s.creds.homeyId)
  {
  }

  /** Login with {"access_token": "AT", "refresh_token": "RT"}, then
      discovery over a local hub followed by cloud hub H1. */
  lemma LoginThenDiscovery()
    ensures
      var token := JObject([("access_token", JString("AT")), ("refresh_token", JString("RT"))]);
      var local := JObject([("platform", JString("local")), ("id", JString("x"))]);
      var cloud := JObject([("platform", JString("cloud")), ("id", JString("H1")), ("remoteUrl", JString("https://h1"))]);
      var me := JObject([("homeys", JArray([local, cloud]))]);
      var l := Login(Empty, token);
      var d := FetchHomeyCloudRemoteUrl(l.creds, me);
      && l.ok && l.creds.accessToken == JString("AT") && l.creds.refreshToken == JString("RT")
      && d.ok && d.creds.homeyId == JString("H1") && d.creds.cloudRemoteUrl == JString("https://h1")
  {
    var token := JObject([("access_token", JString("AT")), ("refresh_token", JString("RT"))]);
    var local := JObject([("platform", JString("local")), ("id", JString("x"))]);
    var cloud := JObject([("platform", JString("cloud")), ("id", JString("H1")), ("remoteUrl", JString("https://h1"))]);
    var me := JObject([("homeys", JArray([local, cloud]))]);
    assert Item(token, "access_token") == Some(JString("AT"));
    assert Item(token, "refresh_token") == Some(JString("RT"));
    var l := Login(Empty, token);
    assert l.creds.accessToken == JString("AT");
    assert Item(local, "platform") == Some(JString("local"));
    assert Item(cloud, "platform") == Some(JString("cloud"));
    assert FirstCloud([local, cloud]) == Some(cloud) by {
      assert [local, cloud][1..] == [cloud];
    }
    assert SelectedHub(me) == Some(cloud);
    assert Item(cloud, "id") == Some(JString("H1"));
    assert Item(cloud, "remoteUrl") == Some(JString("https://h1"));
  }
}
