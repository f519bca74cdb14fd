/** `connectTransport`: a connection string `protocol:url` becomes the
    description of the transport to open, or the error the call throws. The
    transport objects themselves are modelled in `Livekit` and are not
    constructed here; the WHATWG URL parser is a parameter. */
module ConnectTransport {
  import opened Strings

  /** What `new URL(url)` yields when it does not throw: `origin + pathname`
      and the `access_token` search parameter, if any. */
  datatype ParsedUrl = ParsedUrl(originAndPath: string, accessToken: Option<string>)

  datatype TransportSpec =
    | WsRoomTransport(url: string, sceneId: string)
    | LivekitTransport(url: string, token: string, sceneId: string)

  datatype TransportError =
    | InvalidUrl                         // `new URL` threw
    | NoAccessToken                      // 'No access token'
    | NoTransportForProtocol(protocol: string)

  /** The ws-room address: 'wss://' is prepended unless the url already
      names a WebSocket scheme. */
  function WsRoomUrl(url: string): (r: string)
    ensures StartsWith(r, "ws:") || StartsWith(r, "wss:")
    ensures StartsWith(url, "ws:") || StartsWith(url, "wss:") ==> r == url
    ensures !StartsWith(url, "ws:") && !StartsWith(url, "wss:") ==> r == "wss://" + url
  {
    if !StartsWith(url, "ws:") && !StartsWith(url, "wss:") then
      assert ("wss://" + url)[..4] == "wss:";
      "wss://" + url
    else url
  }

  lemma WsRoomUrlIdempotent(url: string)
    ensures WsRoomUrl(WsRoomUrl(url)) == WsRoomUrl(url)
  {
  }

  function ConnectTransport(connStr: string, sceneId: string, parseUrl: string -> Option<ParsedUrl>): (r: Result<TransportSpec, TransportError>)
    ensures r.Ok? ==> r.value.sceneId == sceneId
  {
    var (protocol, url) := SplitProtocol(connStr);
    if protocol == "ws-room" then
      Ok(WsRoomTransport(WsRoomUrl(url), sceneId))
    else if protocol == "livekit" then
      match parseUrl(url)
      case None => Err(InvalidUrl)
      case Some(parsed) =>
        if parsed.accessToken.None? || parsed.accessToken.value == "" then Err(NoAccessToken)
        else Ok(LivekitTransport(parsed.originAndPath, parsed.accessToken.value, sceneId))
    else
      Err(NoTransportForProtocol(protocol))
  }

  /** The closed switch of `connectTransport` on the protocol before the
      first ':': ws-room and livekit transports, the livekit url and token
      errors, and the error for every other protocol. */
  lemma ConnectTransportCases(connStr: string, sceneId: string, parseUrl: string -> Option<ParsedUrl>)
    ensures var (protocol, url) := SplitProtocol(connStr);
            var r := ConnectTransport(connStr, sceneId, parseUrl);
            && (protocol == "ws-room" <==> r.Ok? && r.value.WsRoomTransport?)
            && (protocol == "ws-room" ==> r == Ok(WsRoomTransport(WsRoomUrl(url), sceneId)))
            && (protocol == "livekit" <==> (r.Ok? && r.value.LivekitTransport?) || r == Err(InvalidUrl) || r == Err(NoAccessToken))
            && (protocol == "livekit" && parseUrl(url).None? ==> r == Err(InvalidUrl))
            && (protocol == "livekit" && parseUrl(url).Some? ==>
                  var parsed := parseUrl(url).value;
                  if parsed.accessToken.None? || parsed.accessToken.value == "" then r == Err(NoAccessToken)
                  else r == Ok(LivekitTransport(parsed.originAndPath, parsed.accessToken.value, sceneId)))
            && (protocol != "ws-room" && protocol != "livekit" <==> r == Err(NoTransportForProtocol(protocol)))
  {
  }

  /** A string without ':' (the offline adapter's url '' among them) has the
      protocol '' and opens no transport. */
  lemma {:induction false} NoColonOpensNothing(connStr: string, sceneId: string, parseUrl: string -> Option<ParsedUrl>)
    requires ':' !in connStr
    ensures ConnectTransport(connStr, sceneId, parseUrl) == Err(NoTransportForProtocol(""))
  {
    assert SplitProtocol(connStr) == ("", connStr);
  }

  /** `ws-room:` strings always open a ws-room transport on a WebSocket url,
      keeping exactly the text after the first ':' when it already has a
      WebSocket scheme. */
  lemma {:induction false} WsRoomDispatch(url: string, sceneId: string, parseUrl: string -> Option<ParsedUrl>)
    ensures var r := ConnectTransport("ws-room:" + url, sceneId, parseUrl);
            && r.Ok? && r.value.WsRoomTransport?
            && (StartsWith(r.value.url, "ws:") || StartsWith(r.value.url, "wss:"))
            && (StartsWith(url, "ws:") || StartsWith(url, "wss:") ==> r.value.url == url)
  {
    assert "ws-room:" + url == "ws-room" + ":" + url;
    SplitProtocolUnique("ws-room", url);
  }

  /** A livekit url without a usable token never opens a transport. */
  lemma {:induction false} LivekitNeedsToken(url: string, sceneId: string, parseUrl: string -> Option<ParsedUrl>)
    requires parseUrl(url).Some?
    requires parseUrl(url).value.accessToken.None? || parseUrl(url).value.accessToken == Some("")
    ensures ConnectTransport("livekit:" + url, sceneId, parseUrl) == Err(NoAccessToken)
  {
    assert "livekit:" + url == "livekit" + ":" + url;
    SplitProtocolUnique("livekit", url);
    assert "livekit"[0] != "ws-room"[0];
  }
}
