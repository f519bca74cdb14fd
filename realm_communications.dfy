/** The realm communication system: it keeps one adapter for the current
    realm and reconciles the transports that adapter wants open with the
    map of active transports, keyed by connection string. Disconnection is
    asynchronous in the source; here a started disconnect is recorded as
    pending and completed by a separate call. */
module RealmCommunications {
  import opened Strings
  import ConnectTransport
  import ConnectAdapter
  import Resolution

  type DesiredTransport = ConnectAdapter.DesiredTransport
  type CommsAdapter = ConnectAdapter.CommsAdapter

  /** One transport wrapper. Only its identity and what it was created
      from matter here. */
  class Transport {
    const url: string
    const sceneId: string
    const spec: ConnectTransport.TransportSpec

    constructor (url: string, sceneId: string, spec: ConnectTransport.TransportSpec)
      ensures this.url == url && this.sceneId == sceneId && this.spec == spec
    {
      this.url := url;
      this.sceneId := sceneId;
      this.spec := spec;
    }
  }

  /** Whether some desired entry has this url (`find` by url). */
  function HasUrl(desired: seq<DesiredTransport>, url: string): (b: bool)
    ensures b <==> exists i :: 0 <= i < |desired| && desired[i].url == url
  {
    if desired == [] then false
    else desired[0].url == url || HasUrl(desired[1..], url)
  }

  /** The position of the first desired entry with this url, or the
      length of the list when there is none. */
  function FirstWithUrl(desired: seq<DesiredTransport>, url: string): (i: nat)
    ensures i <= |desired|
    ensures i < |desired| ==> desired[i].url == url
  {
    if desired == [] then 0
    else if desired[0].url == url then 0
    else 1 + FirstWithUrl(desired[1..], url)
  }

  /** `FirstWithUrl` finds the first match: an entry with the url, after
      entries that all have other urls, is where it stops. */
  lemma {:induction false} FirstWithUrlIsFirst(desired: seq<DesiredTransport>, url: string, i: nat)
    requires i < |desired| && desired[i].url == url
    requires forall j :: 0 <= j < i ==> desired[j].url != url
    ensures FirstWithUrl(desired, url) == i
  {
    if i > 0 {
      FirstWithUrlIsFirst(desired[1..], url, i - 1);
    }
  }

  /** `FirstWithUrl` runs off the end exactly when no entry has the url. */
  lemma {:induction false} FirstWithUrlFindsAny(desired: seq<DesiredTransport>, url: string)
    ensures FirstWithUrl(desired, url) == |desired| <==> !HasUrl(desired, url)
  {
    if desired != [] && desired[0].url != url {
      FirstWithUrlFindsAny(desired[1..], url);
    }
  }

  /** The active urls no desired entry asks for. */
  function Undesired(keys: set<string>, desired: seq<DesiredTransport>): (r: set<string>)
    ensures forall k :: k in r <==> k in keys && !HasUrl(desired, k)
  {
    set k | k in keys && !HasUrl(desired, k)
  }

  /** The parts of the `/about` response read here. */
  datatype AboutResponse = AboutResponse(realmName: Option<string>, fixedAdapter: Option<string>)

  /** The `fetch` of `/about`: it rejects, or settles with its `ok` flag
      and the outcome of `res.json()`, which is `None` when that rejects.
      The body of a response that is not ok is never read. */
  datatype AboutOutcome =
    | AboutFetchRejected
    | AboutSettled(ok: bool, body: Option<AboutResponse>)

  datatype CurrentRealm = CurrentRealm(baseUrl: string, connectionString: string, aboutResponse: AboutResponse)

  datatype RealmError =
    | ResolutionFailed(error: Resolution.ResolutionError)
    | AboutFetchFailed                   // `fetch` rejected
    | AboutBodyUnreadable                // `res.json()` rejected
    | CouldNotLoadRealm(realmConnectionString: string)

  const LocalPreviewRealmName := "LocalPreview"
  const OfflineAdapter := "offline:offline"
  const RealmSceneId := "realm"

  /** `.replace(/\/$/, '')`: one trailing '/' is removed. */
  function StripTrailingSlash(s: string): (r: string)
    ensures EndsWith(s, "/") ==> s == r + "/"
    ensures !EndsWith(s, "/") ==> r == s
  {
    if EndsWith(s, "/") then
      assert s == s[..|s| - 1] + "/";
      s[..|s| - 1]
    else s
  }

  /** The stripped base url keeps the protocol of the resolved one. */
  lemma {:induction false} StripKeepsProtocol(s: string)
    requires Resolution.HasHttpProtocol(s)
    ensures Resolution.HasHttpProtocol(StripTrailingSlash(s) + "/about")
  {
    var t := StripTrailingSlash(s) + "/about";
    assert t[..|s|] == s;
    if StartsWith(s, "https://") {
      assert t[..8] == t[..|s|][..8];
    } else {
      assert t[..7] == t[..|s|][..7];
    }
  }

  /** `connectTransport(url, identity, scene, sceneId)` as the realm system
      calls it: the URL parser is fixed, the identity and scene are not
      modelled. */
  type Connector = (string, string) -> Result<ConnectTransport.TransportSpec, ConnectTransport.TransportError>

  function TransportConnector(parseUrl: string -> Option<ConnectTransport.ParsedUrl>): Connector {
    (url: string, sceneId: string) => ConnectTransport.ConnectTransport(url, sceneId, parseUrl)
  }

  /** A transport created for `desired` comes from the first entry asking
      for its url: same scene, and the spec `connectTransport` gives for
      it. */
  predicate NewTransportFor(desired: seq<DesiredTransport>, connect: Connector, t: Transport) {
    var i := FirstWithUrl(desired, t.url);
    && i < |desired|
    && t.sceneId == desired[i].sceneId
    && connect(t.url, desired[i].sceneId) == Ok(t.spec)
  }

  /** The position of the first desired entry whose url is not active, or
      the length of the list when every url is. */
  function FirstMissing(desired: seq<DesiredTransport>, active: map<string, Transport>): (i: nat)
    ensures i <= |desired|
    ensures i < |desired| ==> desired[i].url !in active
  {
    if desired == [] then 0
    else if desired[0].url !in active then 0
    else 1 + FirstMissing(desired[1..], active)
  }

  /** Every entry before `FirstMissing` is active, so an inactive entry
      after active ones is where it stops. */
  lemma {:induction false} FirstMissingIsFirst(desired: seq<DesiredTransport>, active: map<string, Transport>, i: nat)
    requires i < |desired| && desired[i].url !in active
    requires forall j :: 0 <= j < i ==> desired[j].url in active
    ensures FirstMissing(desired, active) == i
  {
    if i > 0 {
      FirstMissingIsFirst(desired[1..], active, i - 1);
    }
  }

  lemma {:induction false} BeforeFirstMissingIsActive(desired: seq<DesiredTransport>, active: map<string, Transport>, j: nat)
    requires j < FirstMissing(desired, active)
    ensures desired[j].url in active
  {
    if j > 0 {
      BeforeFirstMissingIsActive(desired[1..], active, j - 1);
    }
  }

  /** The first entry whose url is not active fails in `connectTransport`
      with this error. */
  predicate FailedEntry(desired: seq<DesiredTransport>, connect: Connector,
                        error: ConnectTransport.TransportError, active: map<string, Transport>)
  {
    var i := FirstMissing(desired, active);
    i < |desired| && connect(desired[i].url, desired[i].sceneId) == Err(error)
  }

  /** Each transport is filed under its own url. */
  predicate FiledByUrl(active: map<string, Transport>) {
    forall k :: k in active ==> active[k].url == k
  }

  /** The adapter `connectNewCommsAdapter` connects for a realm: the local
      preview goes through the gatekeeper, any other realm through its fixed
      adapter or, without one, 'offline:offline' for the scene 'realm'. */
  function AdapterForRealm(realm: CurrentRealm, localSceneUrn: string,
                           signedFetch: string -> ConnectAdapter.SignedFetchOutcome): Result<CommsAdapter, ConnectAdapter.AdapterError>
  {
    if realm.aboutResponse.realmName == Some(LocalPreviewRealmName) then
      ConnectAdapter.ConnectLocalAdapter(localSceneUrn, signedFetch)
    else
      ConnectAdapter.ConnectAdapter(if realm.aboutResponse.fixedAdapter.Some? then realm.aboutResponse.fixedAdapter.value else OfflineAdapter,
                                    RealmSceneId, signedFetch)
  }

  /** 'offline:offline' is the offline adapter: one desired transport with
      the url '' for the scene 'realm'. */
  lemma {:induction false} OfflineAdapterWantsNoUrl(signedFetch: string -> ConnectAdapter.SignedFetchOutcome)
    ensures ConnectAdapter.ConnectAdapter(OfflineAdapter, RealmSceneId, signedFetch)
            == Ok(ConnectAdapter.CommsAdapter([ConnectAdapter.DesiredTransport("", RealmSceneId)]))
  {
    assert OfflineAdapter == "offline:" + "offline";
    ConnectAdapter.OfflineOpensNoTransport("offline", RealmSceneId, signedFetch, _ => None);
  }

  /** A realm that is not the local preview and names no fixed adapter is
      offline: its one desired transport has the url '', which opens
      nothing. */
  lemma OfflineRealmOpensNothing(realm: CurrentRealm, localSceneUrn: string,
                                 signedFetch: string -> ConnectAdapter.SignedFetchOutcome,
                                 parseUrl: string -> Option<ConnectTransport.ParsedUrl>)
    requires realm.aboutResponse.realmName != Some(LocalPreviewRealmName)
    requires realm.aboutResponse.fixedAdapter.None?
    ensures AdapterForRealm(realm, localSceneUrn, signedFetch) == Ok(ConnectAdapter.CommsAdapter([ConnectAdapter.DesiredTransport("", RealmSceneId)]))
    ensures ConnectTransport.ConnectTransport("", RealmSceneId, parseUrl) == Err(ConnectTransport.NoTransportForProtocol(""))
  {
    assert AdapterForRealm(realm, localSceneUrn, signedFetch) == ConnectAdapter.ConnectAdapter(OfflineAdapter, RealmSceneId, signedFetch);
    OfflineAdapterWantsNoUrl(signedFetch);
    ConnectTransport.NoColonOpensNothing("", RealmSceneId, parseUrl);
  }

  class RealmCommunicationSystem {
    var currentAdapter: Option<CommsAdapter>
    var activeTransports: map<string, Transport>
    /** The urls of the started disconnects whose completion has not run. */
    var pendingDisconnects: multiset<string>
    /** The replaced adapters whose `disconnect` was called, in order. */
    var disconnectedAdapters: seq<CommsAdapter>
    var currentRealm: Option<CurrentRealm>

    /** Each active transport is filed under its own url. */
    ghost predicate Valid()
      reads this
    {
      FiledByUrl(activeTransports)
    }

    constructor ()
      ensures Valid()
      ensures currentAdapter == None && activeTransports == map[] && pendingDisconnects == multiset{}
      ensures disconnectedAdapters == [] && currentRealm == None
    {
      currentAdapter := None;
      activeTransports := map[];
      pendingDisconnects := multiset{};
      disconnectedAdapters := [];
      currentRealm := None;
    }

    /** `getDesiredTransports`: the current adapter's list, or nothing. */
    function GetDesiredTransports(): (r: seq<DesiredTransport>)
      reads this
      ensures currentAdapter.None? ==> r == []
      ensures currentAdapter.Some? ==> r == currentAdapter.value.desiredTransports
    {
      if currentAdapter.Some? then currentAdapter.value.desiredTransports else []
    }

    /** `getTransports` */
    function GetTransports(): (r: set<Transport>)
      reads this
      ensures r == activeTransports.Values
      ensures forall k :: k in activeTransports ==> activeTransports[k] in r
      ensures |r| <= |activeTransports|
    {
      activeTransports.Values
    }

    /** `updateAdapters`: start disconnecting the active transports no entry
        asks for, then create the missing ones in order. A failing
        `connectTransport` throws and ends the call. */
    method UpdateAdapters(desired: seq<DesiredTransport>, hasIdentity: bool,
                          parseUrl: string -> Option<ConnectTransport.ParsedUrl>)
      returns (r: Result<(), ConnectTransport.TransportError>)
      requires Valid()
      modifies this
      ensures Valid()
      ensures !hasIdentity ==> r.Ok? && unchanged(this)
      ensures currentAdapter == old(currentAdapter) && currentRealm == old(currentRealm)
      ensures disconnectedAdapters == old(disconnectedAdapters)
      // removal is only started: the undesired transports stay in the map
      ensures hasIdentity ==>
                pendingDisconnects == old(pendingDisconnects) + multiset(Undesired(old(activeTransports).Keys, desired))
      // nothing active is removed or replaced
      ensures forall k :: k in old(activeTransports) ==> k in activeTransports && activeTransports[k] == old(activeTransports)[k]
      // every new transport is fresh and built by connectTransport from the first entry with its url
      ensures forall k :: k in activeTransports && k !in old(activeTransports) ==>
                fresh(activeTransports[k]) && NewTransportFor(desired, TransportConnector(parseUrl), activeTransports[k])
      // on success every desired url is active
      ensures r.Ok? && hasIdentity ==> forall i :: 0 <= i < |desired| ==> desired[i].url in activeTransports
      // on failure the error is that of an entry whose url could not be connected
      ensures r.Err? ==> FailedEntry(desired, TransportConnector(parseUrl), r.error, activeTransports)
    {
      if !hasIdentity {
        return Ok(());
      }

      StartUndesiredDisconnects(desired);
      r := ConnectMissing(desired, TransportConnector(parseUrl));
    }

    /** The first loop of `updateAdapters`: a disconnect is started for
        every active url no entry asks for. */
    method StartUndesiredDisconnects(desired: seq<DesiredTransport>)
      modifies this`pendingDisconnects
      ensures pendingDisconnects == old(pendingDisconnects) + multiset(Undesired(activeTransports.Keys, desired))
    {
      var keys := activeTransports.Keys;
      var remaining := keys;
      var started: set<string> := {};
      ghost var done: set<string> := {};
      while remaining != {}
        invariant done + remaining == keys && done !! remaining
        invariant started == Undesired(done, desired)
        decreases remaining
      {
        var connectionString :| connectionString in remaining;
        if !HasUrl(desired, connectionString) {
          started := started + {connectionString};
        }
        remaining := remaining - {connectionString};
        done := done + {connectionString};
      }
      pendingDisconnects := pendingDisconnects + multiset(started);
    }

    /** The second loop of `updateAdapters`: each entry whose url is not
        active gets a new transport (whose `connect` is started). */
    method ConnectMissing(desired: seq<DesiredTransport>, connect: Connector)
      returns (r: Result<(), ConnectTransport.TransportError>)
      requires Valid()
      modifies this`activeTransports
      ensures Valid()
      ensures forall k :: k in old(activeTransports) ==> k in activeTransports && activeTransports[k] == old(activeTransports)[k]
      ensures forall k :: k in activeTransports && k !in old(activeTransports) ==>
                fresh(activeTransports[k]) && NewTransportFor(desired, connect, activeTransports[k])
      ensures r.Ok? ==> forall i :: 0 <= i < |desired| ==> desired[i].url in activeTransports
      ensures r.Err? ==> FailedEntry(desired, connect, r.error, activeTransports)
    {
      ghost var before := activeTransports;
      for i := 0 to |desired|
        invariant Valid()
        invariant forall k :: k in before ==> k in activeTransports && activeTransports[k] == before[k]
        invariant forall k :: k in activeTransports && k !in before ==>
                    fresh(activeTransports[k]) && NewTransportFor(desired, connect, activeTransports[k])
        invariant forall j :: 0 <= j < i ==> desired[j].url in activeTransports
      {
        if desired[i].url !in activeTransports {
          var created := CreateTransport(desired, connect, i, activeTransports);
          if created.Err? {
            return Err(created.error);
          }
          activeTransports := activeTransports[desired[i].url := created.value];
        }
      }
      r := Ok(());
    }

    /** The body of that loop for an entry whose url is not active (so
        every earlier one is): `connectTransport` either fails, with the
        error of the first inactive entry, or gives the spec of a new
        transport for that entry. */
    static method CreateTransport(desired: seq<DesiredTransport>, connect: Connector, i: nat, active: map<string, Transport>)
      returns (r: Result<Transport, ConnectTransport.TransportError>)
      requires i < |desired| && desired[i].url !in active
      requires forall j :: 0 <= j < i ==> desired[j].url in active
      ensures r.Err? ==> FailedEntry(desired, connect, r.error, active)
      ensures r.Ok? ==> fresh(r.value) && r.value.url == desired[i].url && NewTransportFor(desired, connect, r.value)
    {
      FirstWithUrlIsFirst(desired, desired[i].url, i);
      FirstMissingIsFirst(desired, active, i);
      var connected := connect(desired[i].url, desired[i].sceneId);
      if connected.Err? {
        return Err(connected.error);
      }
      var transport := new Transport(desired[i].url, desired[i].sceneId, connected.value);
      r := Ok(transport);
    }

    /** The deferred `.finally` of a started disconnect: the url is deleted
        from the map, whichever transport it holds by then. */
    method CompleteDisconnect(url: string)
      requires url in pendingDisconnects
      requires Valid()
      modifies this
      ensures Valid()
      ensures pendingDisconnects == old(pendingDisconnects) - multiset{url}
      ensures activeTransports == old(activeTransports) - {url}
      ensures currentAdapter == old(currentAdapter) && currentRealm == old(currentRealm)
      ensures disconnectedAdapters == old(disconnectedAdapters)
    {
      pendingDisconnects := pendingDisconnects - multiset{url};
      activeTransports := activeTransports - {url};
    }

    /** The DISCONNECTION handler of a transport: it evicts its url only
        while the map still holds that same transport. */
    method OnTransportDisconnection(transport: Transport)
      requires Valid()
      modifies this
      ensures Valid()
      ensures transport.url in old(activeTransports) && old(activeTransports)[transport.url] == transport ==>
                activeTransports == old(activeTransports) - {transport.url}
      ensures !(transport.url in old(activeTransports) && old(activeTransports)[transport.url] == transport) ==>
                unchanged(this)
      ensures pendingDisconnects == old(pendingDisconnects) && currentAdapter == old(currentAdapter)
      ensures currentRealm == old(currentRealm)
    {
      if transport.url in activeTransports && activeTransports[transport.url] == transport {
        activeTransports := activeTransports - {transport.url};
      }
    }

    /** `lateUpdate`: reconcile with the current adapter's list. */
    method LateUpdate(hasIdentity: bool, parseUrl: string -> Option<ConnectTransport.ParsedUrl>)
      returns (r: Result<(), ConnectTransport.TransportError>)
      requires Valid()
      modifies this
      ensures Valid()
      ensures !hasIdentity ==> r.Ok? && unchanged(this)
      ensures currentAdapter == old(currentAdapter) && currentRealm == old(currentRealm)
      ensures disconnectedAdapters == old(disconnectedAdapters)
      // the transports the current adapter no longer wants are only started disconnecting
      ensures hasIdentity ==>
                pendingDisconnects == old(pendingDisconnects) + multiset(Undesired(old(activeTransports).Keys, old(GetDesiredTransports())))
      ensures forall k :: k in old(activeTransports) ==> k in activeTransports && activeTransports[k] == old(activeTransports)[k]
      ensures forall k :: k in activeTransports && k !in old(activeTransports) ==>
                fresh(activeTransports[k]) && NewTransportFor(old(GetDesiredTransports()), TransportConnector(parseUrl), activeTransports[k])
      ensures r.Ok? && hasIdentity ==>
                forall i :: 0 <= i < |old(GetDesiredTransports())| ==> old(GetDesiredTransports())[i].url in activeTransports
      ensures r.Err? ==> FailedEntry(old(GetDesiredTransports()), TransportConnector(parseUrl), r.error, activeTransports)
    {
      var desiredTransports := GetDesiredTransports();
      r := UpdateAdapters(desiredTransports, hasIdentity, parseUrl);
    }

    /** `connectNewCommsAdapter`, run when the current realm changes: the
        local preview is connected through the gatekeeper, any other realm
        through its fixed adapter (or 'offline:offline'). On success the new
        adapter is swapped in first and the previous one disconnected. */
    method OnRealmChanged(realm: CurrentRealm, localSceneUrn: string,
                          signedFetch: string -> ConnectAdapter.SignedFetchOutcome)
      returns (r: Result<CommsAdapter, ConnectAdapter.AdapterError>)
      requires Valid()
      modifies this
      ensures Valid()
      ensures r == AdapterForRealm(realm, localSceneUrn, signedFetch)
      ensures r.Err? ==> unchanged(this)
      ensures r.Ok? ==>
                && currentAdapter == Some(r.value)
                && disconnectedAdapters == old(disconnectedAdapters) + (if old(currentAdapter).Some? then [old(currentAdapter).value] else [])
                && activeTransports == old(activeTransports) && pendingDisconnects == old(pendingDisconnects)
                && currentRealm == old(currentRealm)
    {
      r := AdapterForRealm(realm, localSceneUrn, signedFetch);
      if r.Ok? {
        SwapAdapter(r.value);
      }
    }

    /** The success path of `connectNewCommsAdapter`: the new adapter is
        set before the previous one, if any, is disconnected. */
    method SwapAdapter(adapter: CommsAdapter)
      requires Valid()
      modifies this`currentAdapter, this`disconnectedAdapters
      ensures Valid()
      ensures currentAdapter == Some(adapter)
      ensures disconnectedAdapters == old(disconnectedAdapters) + (if old(currentAdapter).Some? then [old(currentAdapter).value] else [])
    {
      var oldAdapter := currentAdapter;
      currentAdapter := Some(adapter);
      if oldAdapter.Some? {
        disconnectedAdapters := disconnectedAdapters + [oldAdapter.value];
      }
    }

    /** `connectRealm`: resolve the realm, strip one trailing '/', fetch
        `/about` from `about(url)`, and swap the current realm only when
        the response is ok and its body parses. A rejected fetch or body
        rejects the call with the realm unchanged. */
    method ConnectRealm(realmConnectionString: string, about: string -> AboutOutcome)
      returns (r: Result<CurrentRealm, RealmError>)
      requires Valid()
      modifies this
      ensures Valid()
      ensures Resolution.ResolveRealmBaseUrl(realmConnectionString).Err? ==>
                r == Err(ResolutionFailed(Resolution.ResolveRealmBaseUrl(realmConnectionString).error)) && unchanged(this)
      ensures Resolution.ResolveRealmBaseUrl(realmConnectionString).Ok? ==>
                var baseUrl := StripTrailingSlash(Resolution.ResolveRealmBaseUrl(realmConnectionString).value);
                var response := about(baseUrl + "/about");
                && (response.AboutFetchRejected? ==> r == Err(AboutFetchFailed) && unchanged(this))
                && (response.AboutSettled? && !response.ok ==> r == Err(CouldNotLoadRealm(realmConnectionString)) && unchanged(this))
                && (response.AboutSettled? && response.ok && response.body.None? ==> r == Err(AboutBodyUnreadable) && unchanged(this))
                && (response.AboutSettled? && response.ok && response.body.Some? ==>
                      r == Ok(CurrentRealm(baseUrl, realmConnectionString, response.body.value)) && currentRealm == Some(r.value))
      ensures currentAdapter == old(currentAdapter) && activeTransports == old(activeTransports)
      ensures pendingDisconnects == old(pendingDisconnects) && disconnectedAdapters == old(disconnectedAdapters)
    {
      var resolved := Resolution.ResolveRealmBaseUrl(realmConnectionString);
      if resolved.Err? {
        return Err(ResolutionFailed(resolved.error));
      }

      var baseUrl := StripTrailingSlash(resolved.value);
      var response := about(baseUrl + "/about");
      if response.AboutFetchRejected? {
        return Err(AboutFetchFailed);
      }

      if response.ok {
        if response.body.None? {
          return Err(AboutBodyUnreadable);
        }
        var newRealm := CurrentRealm(baseUrl, realmConnectionString, response.body.value);
        currentRealm := Some(newRealm);
        return Ok(newRealm);
      }

      r := Err(CouldNotLoadRealm(realmConnectionString));
    }
  }
}
