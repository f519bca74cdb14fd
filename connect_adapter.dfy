/** `connectAdapter` and `connectLocalAdapter`: a realm's adapter
    connection string becomes the list of transports the realm wants open,
    or the error the call throws. The signed fetch is a parameter; the JSON
    it returns is modelled as a JavaScript value. */
module ConnectAdapter {
  import opened Strings
  import ConnectTransport

  /** The JavaScript values a JSON response body can hold, as far as these
      functions look at them. `JsOther` is a number or boolean, with its
      truthiness; arrays are objects without the fields read here. */
  datatype JsValue =
    | JsUndefined
    | JsNull
    | JsString(s: string)
    | JsObject(fields: map<string, JsValue>)
    | JsOther(truthy: bool)

  predicate Truthy(v: JsValue) {
    match v
    case JsUndefined => false
    case JsNull => false
    case JsString(s) => s != ""
    case JsObject(_) => true
    case JsOther(t) => t
  }

  /** `typeof v === 'object'`, which holds for `null` too. */
  predicate TypeofObject(v: JsValue) {
    v.JsNull? || v.JsObject?
  }

  /** `v.key` on a value that is not `null` or `undefined`. */
  function Property(v: JsValue, key: string): (r: JsValue)
    requires !v.JsNull? && !v.JsUndefined?
    ensures !v.JsObject? ==> r == JsUndefined
    ensures v.JsObject? && key !in v.fields ==> r == JsUndefined
  {
    if v.JsObject? && key in v.fields then v.fields[key] else JsUndefined
  }

  /** The settled promise of `signedFetch`: rejected, or a response with its
      `ok` flag and parsed JSON body. */
  datatype SignedFetchOutcome = FetchRejected | Response(ok: bool, json: JsValue)

  datatype DesiredTransport = DesiredTransport(url: string, sceneId: string)

  /** The adapter record: its `desiredTransports` atom holds this list. */
  datatype CommsAdapter = CommsAdapter(desiredTransports: seq<DesiredTransport>)

  datatype AdapterError =
    | SignedFetchRejected                 // the signed fetch's own rejection, propagated
    | HandshakeFailed                     // 'There was an error acquiring the communications connection...'
    | PropertyOfNullish                   // TypeError: a property read on null or undefined
    | HandshakeMessage(message: string)   // the server's message, carried in the error
    | UnknownHandshakeError               // 'An unknown error was detected...'
    | NoAdapterForProtocol(protocol: string)
    | InvalidLivekitConnection            // 'Invalid livekit connection'
    | AdapterNotAString                   // TypeError: `indexOf` on a value that is not a string

  const SignedLoginPrefix := "signed-login:"

  /** The gatekeeper the local-preview handshake is signed against. */
  const CommsGatekeeperUrl := "http://localhost:3000/get-server-scene-adapter"

  /** The decision over the signed-login handshake response. */
  function SignedLogin(outcome: SignedFetchOutcome, sceneId: string): (r: Result<CommsAdapter, AdapterError>)
    ensures outcome.FetchRejected? <==> r == Err(SignedFetchRejected)
    ensures outcome.Response? && (!outcome.ok || !TypeofObject(outcome.json)) <==> r == Err(HandshakeFailed)
    ensures outcome.Response? && outcome.ok && outcome.json.JsNull? <==> r == Err(PropertyOfNullish)
    // a fixed adapter is accepted only when it is a string that does not ask for another handshake
    ensures r.Ok? <==>
              && outcome.Response? && outcome.ok && outcome.json.JsObject?
              && var fixedAdapter := Property(outcome.json, "fixedAdapter");
                 fixedAdapter.JsString? && !StartsWith(fixedAdapter.s, SignedLoginPrefix)
    ensures r.Ok? ==>
              && r.value.desiredTransports == [DesiredTransport(Property(outcome.json, "fixedAdapter").s, sceneId)]
              && !StartsWith(r.value.desiredTransports[0].url, SignedLoginPrefix)
    // otherwise a string message is reported, and anything else is an unknown error
    ensures r.Err? && r.error.HandshakeMessage? <==>
              && outcome.Response? && outcome.ok && outcome.json.JsObject? && !r.Ok?
              && Property(outcome.json, "message").JsString?
    ensures r.Err? && r.error.HandshakeMessage? ==> r.error.message == Property(outcome.json, "message").s
    ensures r.Err? ==> !r.error.NoAdapterForProtocol? && !r.error.InvalidLivekitConnection? && !r.error.AdapterNotAString?
  {
    match outcome
    case FetchRejected => Err(SignedFetchRejected)
    case Response(ok, json) =>
      if !ok || !TypeofObject(json) then Err(HandshakeFailed)
      else if json.JsNull? then Err(PropertyOfNullish)
      else
        var fixedAdapter := Property(json, "fixedAdapter");
        if fixedAdapter.JsString? && !StartsWith(fixedAdapter.s, SignedLoginPrefix) then
          Ok(CommsAdapter([DesiredTransport(fixedAdapter.s, sceneId)]))
        else
          var message := Property(json, "message");
          if message.JsString? then Err(HandshakeMessage(message.s)) else Err(UnknownHandshakeError)
  }

  function ConnectAdapter(connStr: string, sceneId: string, signedFetch: string -> SignedFetchOutcome): (r: Result<CommsAdapter, AdapterError>)
    ensures var (protocol, url) := SplitProtocol(connStr);
            && (protocol == "livekit" || protocol == "ws-room" <==> r == Ok(CommsAdapter([DesiredTransport(connStr, sceneId)])))
            && (protocol == "offline" ==> r == Ok(CommsAdapter([DesiredTransport("", sceneId)])))
            && (protocol == "signed-login" ==> r == SignedLogin(signedFetch(url), sceneId))
            && (protocol !in {"livekit", "ws-room", "offline", "signed-login"} <==> r == Err(NoAdapterForProtocol(protocol)))
    ensures r.Ok? ==> |r.value.desiredTransports| == 1 && r.value.desiredTransports[0].sceneId == sceneId
  {
    var (protocol, url) := SplitProtocol(connStr);
    if protocol == "livekit" || protocol == "ws-room" then
      Ok(CommsAdapter([DesiredTransport(connStr, sceneId)]))
    else if protocol == "offline" then
      Ok(CommsAdapter([DesiredTransport("", sceneId)]))
    else if protocol == "signed-login" then
      SignedLogin(signedFetch(url), sceneId)
    else
      Err(NoAdapterForProtocol(protocol))
  }

  /** `connectLocalAdapter`, after the scene's urn has been loaded: the
      gatekeeper's answer is accepted only when it is ok and names an
      adapter, which is then connected for that urn. */
  function ConnectLocalAdapter(sceneUrn: string, signedFetch: string -> SignedFetchOutcome): (r: Result<CommsAdapter, AdapterError>)
    ensures r.Ok? ==> |r.value.desiredTransports| == 1 && r.value.desiredTransports[0].sceneId == sceneUrn
  {
    match signedFetch(CommsGatekeeperUrl)
    case FetchRejected => Err(SignedFetchRejected)
    case Response(ok, json) =>
      if !ok then Err(InvalidLivekitConnection)
      else if json.JsNull? || json.JsUndefined? then Err(PropertyOfNullish)
      else
        var adapter := Property(json, "adapter");
        if !Truthy(adapter) then Err(InvalidLivekitConnection)
        else if !adapter.JsString? then Err(AdapterNotAString)
        else ConnectAdapter(adapter.s, sceneUrn, signedFetch)
  }

  /** The cases of `connectLocalAdapter`: a rejected fetch propagates, a
      response that is not ok or names no truthy adapter is 'Invalid livekit
      connection', reading a property of a nullish body or calling `indexOf`
      on an adapter that is not a string throws a TypeError, and a string
      adapter is connected for the scene urn. */
  lemma ConnectLocalAdapterCases(sceneUrn: string, signedFetch: string -> SignedFetchOutcome)
    ensures var outcome := signedFetch(CommsGatekeeperUrl);
            var r := ConnectLocalAdapter(sceneUrn, signedFetch);
            && (outcome.FetchRejected? ==> r == Err(SignedFetchRejected))
            && (outcome.Response? && !outcome.ok ==> r == Err(InvalidLivekitConnection))
            && (outcome.Response? && outcome.ok && (outcome.json.JsNull? || outcome.json.JsUndefined?) ==> r == Err(PropertyOfNullish))
            && (outcome.Response? && outcome.ok && !outcome.json.JsNull? && !outcome.json.JsUndefined? ==>
                  var adapter := Property(outcome.json, "adapter");
                  && (!Truthy(adapter) ==> r == Err(InvalidLivekitConnection))
                  && (Truthy(adapter) && !adapter.JsString? ==> r == Err(AdapterNotAString))
                  && (adapter.JsString? && adapter.s != "" ==> r == ConnectAdapter(adapter.s, sceneUrn, signedFetch)))
  {
  }

  /** A connection string without ':' has the protocol '' and no adapter. */
  lemma {:induction false} NoColonNoAdapter(connStr: string, sceneId: string, signedFetch: string -> SignedFetchOutcome)
    requires ':' !in connStr
    ensures ConnectAdapter(connStr, sceneId, signedFetch) == Err(NoAdapterForProtocol(""))
  {
    assert SplitProtocol(connStr).0 == "";
  }

  /** The livekit and ws-room adapters hand the whole connection string to
      `connectTransport`, which dispatches on the same protocol, so it
      never fails there for want of a transport. */
  lemma {:induction false} ForwardedStringKeepsProtocol(connStr: string, sceneId: string,
                                                         signedFetch: string -> SignedFetchOutcome,
                                                         parseUrl: string -> Option<ConnectTransport.ParsedUrl>)
    requires SplitProtocol(connStr).0 in {"livekit", "ws-room"}
    ensures var r := ConnectAdapter(connStr, sceneId, signedFetch);
            && r.Ok?
            && var t := ConnectTransport.ConnectTransport(r.value.desiredTransports[0].url, sceneId, parseUrl);
               t.Err? ==> !t.error.NoTransportForProtocol?
  {
    assert ConnectAdapter(connStr, sceneId, signedFetch).value.desiredTransports[0].url == connStr;
  }

  /** The offline adapter's single desired url is '', which
      `connectTransport` refuses: an offline realm opens no transport. */
  lemma {:induction false} OfflineOpensNoTransport(url: string, sceneId: string,
                                                    signedFetch: string -> SignedFetchOutcome,
                                                    parseUrl: string -> Option<ConnectTransport.ParsedUrl>)
    ensures var r := ConnectAdapter("offline:" + url, sceneId, signedFetch);
            && r == Ok(CommsAdapter([DesiredTransport("", sceneId)]))
            && ConnectTransport.ConnectTransport(r.value.desiredTransports[0].url, sceneId, parseUrl)
               == Err(ConnectTransport.NoTransportForProtocol(""))
  {
    assert "offline:" + url == "offline" + ":" + url;
    SplitProtocolUnique("offline", url);
    assert "offline"[0] != "livekit"[0] && "offline"[0] != "ws-room"[0];
    ConnectTransport.NoColonOpensNothing("", sceneId, parseUrl);
  }

  /** A signed-login handshake never yields another signed-login string, so
      connecting its result does not ask for a second handshake. */
  lemma {:induction false} HandshakeResultIsNotSignedLogin(url: string, sceneId: string, signedFetch: string -> SignedFetchOutcome)
    ensures var r := ConnectAdapter(SignedLoginPrefix + url, sceneId, signedFetch);
            r.Ok? ==> SplitProtocol(r.value.desiredTransports[0].url).0 != "signed-login"
  {
    assert SignedLoginPrefix + url == "signed-login" + ":" + url;
    SplitProtocolUnique("signed-login", url);
  }
}
