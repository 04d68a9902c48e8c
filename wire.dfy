/** The text frames the client exchanges with the hub over the web socket:
    the socket address, the two-step handshake and the numbered API call and
    reply frames. The frame prefixes are the ones the client writes out
    literally: "4" is an Engine.IO message, the next digit the Socket.IO
    packet type (0 connect, 2 event, 3 ack), then the "/api" namespace and,
    for calls and replies, one ack digit. */
module Wire {
  import opened Wrappers
  import opened PyJson

  // ---------------------------------------------------------------------
  // Socket address

  /** `s` contains `pat` somewhere. */
  predicate Contains(s: string, pat: string) {
    |pat| <= |s| && (s[..|pat|] == pat || Contains(s[1..], pat))
  }

  /** Python's `s.replace(from, to)`: every non-overlapping occurrence of
      `from`, scanning left to right, is replaced by `to`. */
  function ReplaceAll(s: string, from: string, to: string): string
    requires from != ""
    decreases |s|
  {
    if |s| < |from| then s
    else if s[..|from|] == from then to + ReplaceAll(s[|from|..], from, to)
    else [s[0]] + ReplaceAll(s[1..], from, to)
  }

  /** A string without an occurrence is left as it is. */
  lemma {:induction false} ReplaceAllAbsent(s: string, from: string, to: string)
    requires from != "" && !Contains(s, from)
    ensures ReplaceAll(s, from, to) == s
    decreases |s|
  {
    if |from| <= |s| {
      ReplaceAllAbsent(s[1..], from, to);
      assert [s[0]] + s[1..] == s;
    }
  }

  const SocketIoPath := "/socket.io/?EIO=3&transport=websocket"

  /** The web-socket address for a remote URL. */
  function SocketAddress(remoteUrl: string): (address: string)
    ensures |address| >= |SocketIoPath| && address[|address| - |SocketIoPath|..] == SocketIoPath
  {
    ReplaceAll(remoteUrl, "https://", "wss://") + SocketIoPath
  }

  /** An https URL with no second "https://" in it becomes the wss URL of
      the same host, followed by the Socket.IO path. */
  lemma SocketAddressOfHttpsUrl(rest: string)
    requires !Contains(rest, "https://")
    ensures SocketAddress("https://" + rest) == "wss://" + rest + SocketIoPath
  {
    var url := "https://" + rest;
    assert url[..8] == "https://" && url[8..] == rest;
    ReplaceAllAbsent(rest, "https://", "wss://");
  }

  /** A URL without "https://" is used unchanged. */
  lemma SocketAddressOfOtherUrl(url: string)
    requires !Contains(url, "https://")
    ensures SocketAddress(url) == url + SocketIoPath
  {
    ReplaceAllAbsent(url, "https://", "wss://");
  }

  // ---------------------------------------------------------------------
  // Handshake

  /** The Engine.IO message "2" of type event, carrying the handshake. */
  const HandshakeCallPrefix := "420"
  /** The ack the hub answers the handshake with. */
  const HandshakeAckPrefix := "430"
  /** Connect to the "/api" namespace; the hub echoes this same frame. */
  const NamespaceConnect := "40/api,"

  /** The payload of the handshake frame. */
  function HandshakeRequest(token: Json, homeyId: Json): (r: Json)
    ensures r.JArray? && |r.items| == 2 && r.items[1].JObject? && |r.items[1].members| == 2
  {
    JArray([JString("handshakeClient"), JObject([("token", token), ("homeyId", homeyId)])])
  }

  function HandshakeFrame(codec: Codec, token: Json, homeyId: Json): string {
    HandshakeCallPrefix + codec.dumps(HandshakeRequest(token, homeyId))
  }

  /** `reply[1]["success"] is True`: the hub's second element reports a
      success that is exactly `true` (not merely truthy). */
  function HandshakeAccepted(reply: Json): (accepted: bool)
    ensures accepted <==>
      reply.JArray? && |reply.items| >= 2 && Item(reply.items[1], "success") == Some(JBool(true))
  {
    match At(reply, 1)
    case None => false
    case Some(second) => Item(second, "success") == Some(JBool(true))
  }

  /** What the handshake did: whether it succeeded, how many inbound frames
      it consumed and which frames it sent. */
  datatype Trace = Trace(ok: bool, received: nat, sent: seq<string>)

  /** The handshake step by step over the frames the server sends after the
      socket opens: two frames are discarded, `hello` is sent, the reply
      must be a "430" ack whose payload is accepted, then "40/api," is sent
      and must come back unchanged. It stops at the first step that fails. */
  function Handshake(codec: Codec, inbound: seq<string>, hello: string): (t: Trace)
    ensures t.received <= |inbound| && t.received <= 4 && |t.sent| <= 2
    ensures |inbound| < 2 ==> t == Trace(false, |inbound|, [])
    ensures |inbound| >= 2 ==> |t.sent| >= 1 && t.sent[0] == hello
    ensures t.ok <==>
      && |inbound| >= 4
      && HandshakeAckPrefix <= inbound[2]
      && codec.loads(inbound[2][3..]).Some?
      && HandshakeAccepted(codec.loads(inbound[2][3..]).value)
      && inbound[3] == NamespaceConnect
    ensures t.ok ==> t.received == 4 && t.sent == [hello, NamespaceConnect]
    // the namespace connect goes out exactly after an accepted "430" reply
    ensures |t.sent| == 2 ==> t.sent[1] == NamespaceConnect
    ensures |t.sent| == 2 <==>
      && |inbound| >= 3
      && HandshakeAckPrefix <= inbound[2]
      && codec.loads(inbound[2][3..]).Some?
      && HandshakeAccepted(codec.loads(inbound[2][3..]).value)
    // frames read: the two opening frames and the reply, then the echo once
    // the namespace connect was sent, as far as the server provides them
    ensures t.received ==
      if |t.sent| == 2 then (if |inbound| >= 4 then 4 else 3)
      else if |inbound| >= 3 then 3 else |inbound|
  {
    if |inbound| < 2 then Trace(false, |inbound|, [])
    else if |inbound| < 3 then Trace(false, 2, [hello])
    else
      var reply := inbound[2];
      if !(HandshakeAckPrefix <= reply) then Trace(false, 3, [hello])
      else
        match codec.loads(reply[3..])
        case None => Trace(false, 3, [hello])
        case Some(payload) =>
          if !HandshakeAccepted(payload) then Trace(false, 3, [hello])
          else if |inbound| < 4 then Trace(false, 3, [hello, NamespaceConnect])
          else Trace(inbound[3] == NamespaceConnect, 4, [hello, NamespaceConnect])
  }

  /** The handshake frame is "420" followed by the encoded
      `["handshakeClient", {"token": ..., "homeyId": ...}]`, and a codec that
      decodes what it encodes gives back both credentials under their keys. */
  lemma HandshakeFrameCarriesCredentials(codec: Codec, token: Json, homeyId: Json)
    requires RoundTrips(codec) && DistinctKeys(token) && DistinctKeys(homeyId)
    ensures var frame := HandshakeFrame(codec, token, homeyId);
      && HandshakeCallPrefix <= frame
      && codec.loads(frame[3..]) == Some(HandshakeRequest(token, homeyId))
      && At(HandshakeRequest(token, homeyId), 0) == Some(JString("handshakeClient"))
      && Item(At(HandshakeRequest(token, homeyId), 1).value, "token") == Some(token)
      && Item(At(HandshakeRequest(token, homeyId), 1).value, "homeyId") == Some(homeyId)
  {
    var request := HandshakeRequest(token, homeyId);
    var frame := HandshakeFrame(codec, token, homeyId);
    assert frame[3..] == codec.dumps(request);
    assert DistinctKeys(request.items[1]);
    assert DistinctKeys(request);
  }

  /** Only a success that is exactly `true` is accepted: `false`, `1` or a
      string are not. */
  lemma AcceptedOnlyIfExactlyTrue(first: Json, success: Json)
    ensures HandshakeAccepted(JArray([first, JObject([("success", success)])])) <==> success == JBool(true)
  {
  }

  /** A reply the hub did not accept fails the handshake, and the namespace
      connect is never sent. */
  lemma HandshakeRejected(codec: Codec, inbound: seq<string>, hello: string, payload: Json)
    requires |inbound| >= 3 && HandshakeAckPrefix <= inbound[2]
    requires codec.loads(inbound[2][3..]) == Some(payload)
    requires !HandshakeAccepted(payload)
    ensures !Handshake(codec, inbound, hello).ok
    ensures Handshake(codec, inbound, hello).sent == [hello]
  {
  }

  /** With a codec that decodes what it encodes, a hub that acknowledges the
      handshake with `[null, {"success": true}]` and echoes the namespace
      connect completes it. */
  lemma HandshakeAcceptedByHub(codec: Codec, opening: seq<string>, hello: string)
    requires RoundTrips(codec) && |opening| == 2
    ensures
      var ack := JArray([JNull, JObject([("success", JBool(true))])]);
      var inbound := opening + [HandshakeAckPrefix + codec.dumps(ack), NamespaceConnect];
      Handshake(codec, inbound, hello) == Trace(true, 4, [hello, NamespaceConnect])
  {
    var ack := JArray([JNull, JObject([("success", JBool(true))])]);
    var frame := HandshakeAckPrefix + codec.dumps(ack);
    assert frame[3..] == codec.dumps(ack);
    assert DistinctKeys(ack.items[1]);
    assert DistinctKeys(ack);
    assert codec.loads(codec.dumps(ack)) == Some(ack);
  }

  // ---------------------------------------------------------------------
  // API calls and replies

  /** The prefix of a call frame: an event on "/api" with ack digit `ack`. */
  function CallPrefix(ack: char): string {
    "42/api," + [ack]
  }

  /** The prefix a reply to ack digit `ack` must carry. */
  function ReplyPrefix(ack: char): string {
    "43/api," + [ack]
  }

  function CallFrame(codec: Codec, ack: char, request: Json): string {
    CallPrefix(ack) + codec.dumps(request)
  }

  /** The decoded reply in an inbound frame: accepted only when the frame
      starts with the reply prefix for `ack`; the JSON after that prefix (its
      first eight characters) is decoded. */
  function ParseReply(codec: Codec, frame: string, ack: char): (r: Option<Json>)
    ensures r.Some? ==> ReplyPrefix(ack) <= frame
    ensures r.Some? <==> exists rest :: frame == ReplyPrefix(ack) + rest && codec.loads(rest).Some?
    ensures r.Some? ==> codec.loads(frame[|ReplyPrefix(ack)|..]) == r
  {
    if |frame| >= 8 && frame[..8] == ReplyPrefix(ack) then
      assert frame == ReplyPrefix(ack) + frame[8..];
      codec.loads(frame[8..])
    else
      None
  }

  /** Framing round trip: a reply written with the awaited ack digit is
      decoded back to its payload. */
  lemma ReplyRoundTrip(codec: Codec, ack: char, payload: Json)
    requires RoundTrips(codec) && DistinctKeys(payload)
    ensures ParseReply(codec, ReplyPrefix(ack) + codec.dumps(payload), ack) == Some(payload)
  {
    var frame := ReplyPrefix(ack) + codec.dumps(payload);
    assert frame[..8] == ReplyPrefix(ack) && frame[8..] == codec.dumps(payload);
  }

  /** A reply to another ack digit is refused, whatever follows it. */
  lemma ReplyToOtherAckRefused(codec: Codec, ack: char, other: char, rest: string)
    requires ack != other
    ensures ParseReply(codec, ReplyPrefix(other) + rest, ack).None?
  {
    var frame := ReplyPrefix(other) + rest;
    assert frame[7] == other;
  }

  /** A call frame is the eight-character call prefix followed by the
      encoded request, which a codec that decodes what it encodes gives back
      from the text after the prefix. */
  lemma CallFrameCarriesRequest(codec: Codec, ack: char, request: Json)
    requires RoundTrips(codec) && DistinctKeys(request)
    ensures var frame := CallFrame(codec, ack, request);
      && |frame| >= 8 && frame[..8] == CallPrefix(ack)
      && codec.loads(frame[8..]) == Some(request)
  {
    var frame := CallFrame(codec, ack, request);
    assert frame[8..] == codec.dumps(request);
  }

  /** The ack digit tells prefixes apart: two reply prefixes (or two call
      prefixes) are equal only for the same digit, and a call prefix is
      never a reply prefix. */
  lemma PrefixesIdentifyTheAck(ack: char, other: char)
    ensures ReplyPrefix(ack) == ReplyPrefix(other) <==> ack == other
    ensures CallPrefix(ack) == CallPrefix(other) <==> ack == other
    ensures CallPrefix(ack) != ReplyPrefix(other)
    ensures |CallPrefix(ack)| == |ReplyPrefix(ack)| == 8
  {
    assert ReplyPrefix(ack)[7] == ack && ReplyPrefix(other)[7] == other;
    assert CallPrefix(ack)[7] == ack && CallPrefix(other)[7] == other;
    assert CallPrefix(ack)[1] != ReplyPrefix(other)[1];
  }

  /** A call frame is never taken for a reply, whatever its digits. */
  lemma CallIsNotReply(codec: Codec, ack: char, request: Json, other: char)
    ensures ParseReply(codec, CallFrame(codec, ack, request), other).None?
  {
    var frame := CallFrame(codec, ack, request);
    assert frame[1] == '2';
    assert ReplyPrefix(other)[1] == '3';
  }
}
