# Peer synchronisation of the Hammurabi headless server, in Dafny

This project models the layer of the Decentraland headless explorer
(hammurabi-server) that keeps remote players in sync with a scene. The layer
has seven parts:

- **The player entity allocator** (`PlayerEntities`). It packs a 16-bit slot
  and a 16-bit version into a 32-bit entity id (`EntityUtils`). It hands out
  entity 1 to the local player and versioned ids in slots [32, 256) to remote
  peers, and frees, looks up and clears them.
- **The avatar communication system** (`AvatarCommunication`). Peer events
  (connect, disconnect, position, profile announcement, chat) become writes on
  three last-write-wins component stores, the allocator and a profile cache
  keyed by lower-cased address. Subscriptions pull per-component deltas from
  their own watermarks. The stores are modelled abstractly (`LwwStore`).
- **The realm communication system** (`RealmCommunications`). `updateAdapters`
  reconciles the transports the current adapter wants with the map of active
  transports, keyed by connection string. It also covers the DISCONNECTION
  eviction, the adapter swap on a realm change, and `connectRealm`.
- **Connection-string dispatch** (`ConnectAdapter`, `ConnectTransport`). The
  `protocol:url` split at the first ':' feeds the closed switch on the
  protocol. This part includes the signed-login handshake decision and the
  local-preview gatekeeper check.
- **The livekit transport** (`Livekit`). It covers the `disposed` flag, the
  ordered guards of `send`, the once-only DISCONNECTION, and the forwarding of
  room events.
- **Realm resolution after ADR-144** (`Resolution`). It covers world names,
  `encodeURIComponent`, and protocol defaulting.
- **The command line parser `parseArgs`** (`Cli`).

The form follows the source:

- Pure code is written as functions with lemmas.
- The allocator, the avatar system, the subscription, the realm system and
  the livekit adapter are classes whose methods change their fields.
- Loops are methods with loop invariants:
  - the reuse scan over `entityVersions`;
  - the `getUpdates` loop over the watermark map;
  - the two loops of `updateAdapters`;
  - the argument loop of `parseArgs`.
- Each method is proved against a function of the old state
  (`FirstReusable`, `Undesired`, `Parse`, `DumpDeltas`, `ConnectTransport`).

Network calls are parameters of the methods that use them:

- the profile fetch (`FetchOutcome`);
- the signed fetch (`string -> SignedFetchOutcome`);
- the `/about` fetch (`string -> AboutOutcome`);
- the WHATWG URL parser (`string -> Option<ParsedUrl>`);
- whether the room join resolves or a publish fails (booleans).

A thrown error is an `Err` of a `Result`.

### Where the model departs from the system's description

The code was followed wherever the description of the system disagrees
with it:

- **Reuse of a live slot.** The described allocator reuses only freed slots.
  The code's reuse loop checks only that `(slot, version + 1)` is not live.
  Under the allocator's invariant that check never fails, so slot 32 is reused
  while version 0 is still live (`ReusableIffBelowCeiling`,
  `TwoPeersShareFirstSlot`). A fresh slot is taken only after every earlier
  slot has reached version 0xFFFF (`FirstReusableIsLowestBelowCeiling`). The
  model does this and does not claim one live id per slot.
- **No tombstone on disconnect.** The description says a departed peer's
  components are tombstoned. The code calls `entityDeleted(entity, true)`
  (`removeCompletely`), and the model keeps no tombstone in that case.
- **Stale completions evict the newer transport.** The deferred completion of
  a started disconnect deletes the url from the map whatever transport it
  holds by then (`CompleteDisconnect`). A transport re-created for that url in
  between is therefore evicted too. Only the DISCONNECTION handler compares
  the transport it belongs to.

## Model

| member | source | states |
|---|---|---|
| Strings.ToLower | src/lib/decentraland/communications/player-entity-manager.ts:44 | lower-casing keeps the length and maps each ASCII capital to its small letter, every other character to itself |
| Strings.ToLowerIsLower | src/lib/decentraland/communications/player-entity-manager.ts:44 | a lower-cased string holds no ASCII capital, and lower-casing it again changes nothing |
| Strings.ToLowerOfLower | src/lib/decentraland/communications/player-entity-manager.ts:134 | a string without capitals is its own lower-case form, so a stored address looks itself up |
| Strings.IndexOf | src/lib/decentraland/communications/connect-adapter.ts:45 | -1 exactly when the character is absent, otherwise the position of its first occurrence |
| Strings.SplitProtocol | src/lib/decentraland/communications/connect-adapter.ts:45-47 | the protocol never holds ':'; without ':' the protocol is '' and the url the whole string; otherwise the string is protocol + ':' + url |
| Strings.SplitProtocolUnique | src/lib/decentraland/communications/connect-transport.ts:9-11 | splitting p + ':' + u, for p without ':', gives back exactly (p, u) |
| EntityUtils.ToEntityId | src/lib/decentraland/communications/player-entity-manager.ts:12-14 | the id is a 32-bit value whose low 16 bits are the number modulo 2^16 and whose high 16 bits are the version modulo 2^16 |
| EntityUtils.FromEntityId | src/lib/decentraland/communications/player-entity-manager.ts:8-10 | both halves are 16-bit values that recombine to the id read as an unsigned 32-bit value |
| EntityUtils.RoundTrip | src/lib/decentraland/communications/player-entity-manager.ts:8-14 | unpacking a packed 16-bit slot and version gives them back |
| EntityUtils.UnpackRoundTrip | src/lib/decentraland/communications/player-entity-manager.ts:8-14 | packing the two halves of any 32-bit id gives the id back |
| EntityUtils.ToEntityIdMasks | src/lib/decentraland/communications/player-entity-manager.ts:12-14 | each input is masked to 16 bits: adding 2^16 to either changes nothing |
| EntityUtils.ToEntityIdInjective | src/lib/decentraland/communications/player-entity-manager.ts:12-14 | distinct 16-bit pairs pack to distinct ids |
| PlayerEntities.IsPlayerEntityRange | src/lib/decentraland/communications/player-entity-manager.ts:141-146 | a packed id is a player entity exactly when its slot is in [32, 256) or it is slot 1 version 0, whether or not it is registered |
| PlayerEntities.IsPlayerEntity | src/lib/decentraland/communications/player-entity-manager.ts:141-146 | the range test itself: entity 1, or an id whose low 16 bits lie in [32, 256); `IsPlayerEntityRange` states it on packed ids |
| PlayerEntities.PlayerEntityManager.constructor | src/lib/decentraland/communications/player-entity-manager.ts:24-36 | a new allocator has no live ids, empty maps and counter 32, and satisfies the invariant |
| PlayerEntities.PlayerEntityManager.FirstReusableFrom | src/lib/decentraland/communications/player-entity-manager.ts:62-76 | the slot it names is the first reusable one at or after its start, in iteration order; no earlier slot is reusable |
| PlayerEntities.PlayerEntityManager.FindReusable | src/lib/decentraland/communications/player-entity-manager.ts:62-76 | the reuse loop returns the first reusable slot: its version is below 0xFFFF and the id at its next version is not live |
| PlayerEntities.PlayerEntityManager.Allocate | src/lib/decentraland/communications/player-entity-manager.ts:42-93 | states the five outcomes of an allocation and the whole new state of each: (1) a mapped address keeps its id and nothing changes; (2) the local player gets 1 and only the address maps change; (3) otherwise the first reusable slot is taken at its next version, (4) else the next fresh slot at version 0 with the counter incremented, (5) else none with no change; a remote player gets an id exactly when there is room, as `RemoteAllocation` relates the states; every new remote id was not live before and is live after; recorded versions only grow; the invariant is kept |
| PlayerEntities.PlayerEntityManager.AllocateRemote | src/lib/decentraland/communications/player-entity-manager.ts:61-92 | the remote branch relates the old and new state as `RemoteAllocation` says (reuse, fresh slot or exhaustion, each with its whole new state); an id comes back exactly when there is room, and no id means no change |
| PlayerEntities.PlayerEntityManager.ReuseSlot | src/lib/decentraland/communications/player-entity-manager.ts:65-72 | the slot's version goes up by one and the id at that version becomes live and mapped both ways |
| PlayerEntities.PlayerEntityManager.TakeFreshSlot | src/lib/decentraland/communications/player-entity-manager.ts:79-88 | slot `nextEntityNumber` is recorded at version 0 and its id, not live before, is registered; the counter goes up by one |
| PlayerEntities.PlayerEntityManager.Register | src/lib/decentraland/communications/player-entity-manager.ts:68-70 | a new remote id becomes live and is mapped both ways, keeping the invariant |
| PlayerEntities.PlayerEntityManager.Free | src/lib/decentraland/communications/player-entity-manager.ts:98-121 | the old and new state are related by `Freed`: an unmapped address changes nothing; the local player loses only both mappings; a remote id leaves the live set and both maps; versions and counter never change |
| PlayerEntities.PlayerEntityManager.GetAddressForEntity | src/lib/decentraland/communications/player-entity-manager.ts:126-128 | an address is found exactly when the id is mapped to a non-empty address (`\|\| null`), and it is that address |
| PlayerEntities.PlayerEntityManager.GetEntityForAddress | src/lib/decentraland/communications/player-entity-manager.ts:133-136 | an id is found only for the lower-cased address, exactly when that address is mapped (no allocated id is 0), and it is entity 1 or a live remote id |
| PlayerEntities.PlayerEntityManager.GetEntityInfo | src/lib/decentraland/communications/player-entity-manager.ts:158-165 | the id's two 16-bit halves, which repack to the id, and whether it is live |
| PlayerEntities.PlayerEntityManager.Clear | src/lib/decentraland/communications/player-entity-manager.ts:170-176 | the allocator is back in its initial state: no live ids, empty maps, counter 32 |
| PlayerEntities.PlayerEntityManager.ReusableIffBelowCeiling | src/lib/decentraland/communications/player-entity-manager.ts:62-76 | under the invariant the live-set test never fails: an issued slot is reusable exactly when its version is below 0xFFFF |
| PlayerEntities.PlayerEntityManager.FirstReusableIsLowestBelowCeiling | src/lib/decentraland/communications/player-entity-manager.ts:62-92 | the reuse loop picks the lowest issued slot whose version is below 0xFFFF |
| PlayerEntities.PlayerEntityManager.LookupRoundTrip | src/lib/decentraland/communications/player-entity-manager.ts:126-136 | the address found for an id maps back to that id |
| PlayerEntities.PlayerEntityManager.ReverseLookupRoundTrip | src/lib/decentraland/communications/player-entity-manager.ts:126-136 | the remote id found for an address maps back to the lower-cased address |
| PlayerEntities.TwoPeersShareFirstSlot | src/lib/decentraland/communications/player-entity-manager.ts:62-88 | two remote peers in a row get slot 32 version 0 and slot 32 version 1, both live, with counter 33 |
| LwwStore.EmptyStore | src/lib/decentraland/communications/avatar-communication-system.ts:18-20 | a new store is well formed, with no live values and no tombstones |
| LwwStore.Store.ChangedSince | src/lib/decentraland/communications/avatar-communication-system.ts:224 | exactly the entities stamped after the watermark |
| LwwStore.Store.CreateOrReplace | src/lib/decentraland/communications/avatar-communication-system.ts:72-75 | the entity's live value becomes the new one and its tombstone goes; the clock advances and the entity is among the changes after the old clock; well-formedness is kept |
| LwwStore.Store.EntityDeleted | src/lib/decentraland/communications/avatar-communication-system.ts:100-102 | the entity's live value goes, a tombstone is kept exactly when not removing completely, other tombstones stay, and the deletion is a change after the old clock |
| LwwStore.Store.DumpDeltas | src/lib/decentraland/communications/avatar-communication-system.ts:224 | the pulled entities were all changed after the watermark, and the returned watermark covers every one of them |
| LwwStore.DumpAgainIsEmpty | src/lib/decentraland/communications/avatar-communication-system.ts:221-227 | a pull from the watermark the last pull returned, with no write between, yields nothing |
| LwwStore.WriteIsSeenOnce | src/lib/decentraland/communications/avatar-communication-system.ts:221-227 | a write after a pull is seen, alone, by the next pull, and not again by the one after |
| LwwStore.IndependentWatermarks | src/lib/decentraland/communications/avatar-communication-system.ts:208-227 | a subscriber with an older watermark sees every change a newer one sees |
| AvatarCommunication.NormalizeAddress | src/lib/decentraland/communications/avatar-communication-system.ts:26-28 | the normal form keeps the length, holds no capitals, leaves a lower-case address as it is and is its own normal form |
| AvatarCommunication.AvatarBaseFromProfile | src/lib/decentraland/communications/avatar-communication-system.ts:78-96 | the name is the profile's non-empty name or 'Unknown'; body shape defaults to ''; each missing colour takes its fixed default |
| AvatarCommunication.NeedsFetch | src/lib/decentraland/communications/avatar-communication-system.ts:54-56 | a fetch is needed exactly when nothing is cached for the address or the cached version is below the announced one |
| AvatarCommunication.Accepts | src/lib/decentraland/communications/avatar-communication-system.ts:59-61 | a fetched profile is applied only when it exists and its version is at least the announced one; `AcceptedProfileIsNotRefetched` states what that buys |
| AvatarCommunication.AcceptedProfileIsNotRefetched | src/lib/decentraland/communications/avatar-communication-system.ts:53-62 | an accepted profile strictly raises the cached version, and no announcement up to the one handled triggers a fetch again |
| AvatarCommunication.TransformFromPosition | src/lib/decentraland/communications/avatar-communication-system.ts:165-170 | the transform has the event's position and rotation, unit scale and the global centre of coordinates as parent |
| AvatarCommunication.AvatarCommunicationSystem.constructor | src/lib/decentraland/communications/avatar-communication-system.ts:17-24 | three empty stores and an empty profile cache over the given allocator |
| AvatarCommunication.AvatarCommunicationSystem.DumpComponent | src/lib/decentraland/communications/avatar-communication-system.ts:224 | the pull of the named component's own store never returns a negative watermark |
| AvatarCommunication.AvatarCommunicationSystem.FindPlayerEntityByAddress | src/lib/decentraland/communications/avatar-communication-system.ts:112-134 | the allocator moves as `Found` says: an existing mapping is returned with no write; without creation an absent address gives none and writes nothing; with creation the allocator's remote branch runs on the lower-cased address (`RemoteAllocation`: the reused or fresh id and the whole new allocator state) and yields an entity exactly when there is room; a new entity, and only that, is seeded as a guest with the lower-cased address; a returned entity is a non-zero player entity |
| AvatarCommunication.AvatarCommunicationSystem.IsPlayerEntityOfManaged | src/lib/decentraland/communications/avatar-communication-system.ts:142 | the ids the allocator hands out are never 0, so `if (entity)` means the id exists |
| AvatarCommunication.AvatarCommunicationSystem.UpdatePlayerComponents | src/lib/decentraland/communications/avatar-communication-system.ts:70-97 | identity gets `isGuest = !hasConnectedWeb3`, the avatar the profile-with-defaults value; nothing else changes |
| AvatarCommunication.AvatarCommunicationSystem.HandleProfileVersionAnnouncement | src/lib/decentraland/communications/avatar-communication-system.ts:47-68 | a fetch is issued exactly when no cached version reaches the announced one; a failed, empty or older fetch changes nothing; an accepted profile is cached at its own version and written to both components |
| AvatarCommunication.AvatarCommunicationSystem.RemovePlayerEntity | src/lib/decentraland/communications/avatar-communication-system.ts:99-110 | the entity is deleted from all three stores without tombstones, the allocator frees the address with its whole new state (`Freed`: maps, live set, versions and counter in each of the three cases) and the lower-cased cache entry is evicted | |
| AvatarCommunication.AvatarCommunicationSystem.DeleteComponents | src/lib/decentraland/communications/avatar-communication-system.ts:100-102 | each of the three stores deletes the entity completely |
| AvatarCommunication.AvatarCommunicationSystem.OnPeerConnected | src/lib/decentraland/communications/avatar-communication-system.ts:137-151 | the lookup allocates as `Found` says, so a new peer gets an entity exactly when the allocator has room, seeded as a guest; exactly one announcement of profile version 1 for the lower-cased address is emitted, and only when there is an entity | |
| AvatarCommunication.AvatarCommunicationSystem.OnPeerDisconnected | src/lib/decentraland/communications/avatar-communication-system.ts:153-160 | an unknown peer changes nothing; a known one loses its components, is freed by the allocator with its whole new state (`Freed`) and loses its cache entry | |
| AvatarCommunication.AvatarCommunicationSystem.OnPosition | src/lib/decentraland/communications/avatar-communication-system.ts:162-172 | the lookup allocates as `Found` says and seeds a new entity as a guest; when there is an entity its transform is replaced by the event's pose, otherwise no store changes | |
| AvatarCommunication.AvatarCommunicationSystem.OnProfileMessage | src/lib/decentraland/communications/avatar-communication-system.ts:175-183 | the lookup allocates as `Found` says; the fetch is issued exactly when there is an entity and `NeedsFetch` holds of the old cache; an accepted profile is cached at its version and written to both components over the seeded identity; otherwise only the lookup writes | |
| AvatarCommunication.AvatarCommunicationSystem.OnChatMessage | src/lib/decentraland/communications/avatar-communication-system.ts:185-191 | the only effect is the lazy allocation of `Found`, with a new entity seeded as a guest: a known peer changes nothing | |
| AvatarCommunication.AvatarCommunicationSystem.Dispose | src/lib/decentraland/communications/avatar-communication-system.ts:232-235 | the allocator is back in its initial state and the cache is empty; the stores and the emitted events are untouched | |
| AvatarCommunication.Subscription.constructor | src/lib/decentraland/communications/avatar-communication-system.ts:208-212 | a watermark of -1 for each of the three components |
| AvatarCommunication.Subscription.GetUpdates | src/lib/decentraland/communications/avatar-communication-system.ts:221-227 | the same components keep watermarks; each gets the deltas of its own store since its own watermark, and moves to the watermark that pull returned |
| AvatarCommunication.Subscription.Dispose | src/lib/decentraland/communications/avatar-communication-system.ts:215-220 | no watermarks left, the allocator cleared and the cache empty; the three stores and the emitted events stay as they were | |
| ConnectTransport.WsRoomUrl | src/lib/decentraland/communications/connect-transport.ts:15 | the result always starts with 'ws:' or 'wss:'; an already-prefixed url is kept, any other one gets 'wss://' |
| ConnectTransport.WsRoomUrlIdempotent | src/lib/decentraland/communications/connect-transport.ts:15 | prefixing twice is prefixing once |
| ConnectTransport.ConnectTransport | src/lib/decentraland/communications/connect-transport.ts:8-36 | a created transport carries the given scene id |
| ConnectTransport.ConnectTransportCases | src/lib/decentraland/communications/connect-transport.ts:13-35 | the closed switch: ws-room exactly when a ws-room transport, livekit exactly when a livekit transport or its url error or missing token, any other protocol exactly when its own error |
| ConnectTransport.NoColonOpensNothing | src/lib/decentraland/communications/connect-transport.ts:35 | a string without ':' (the offline url '' among them) fails with the protocol '' |
| ConnectTransport.WsRoomDispatch | src/lib/decentraland/communications/connect-transport.ts:14-18 | 'ws-room:' strings always open a ws-room transport on a WebSocket url, keeping a url that already has one |
| ConnectTransport.LivekitNeedsToken | src/lib/decentraland/communications/connect-transport.ts:19-24 | a livekit url with no or an empty `access_token` fails with 'No access token' |
| ConnectAdapter.SignedLogin | src/lib/decentraland/communications/connect-adapter.ts:83-128 | a non-ok or non-object response fails; `null` fails on the property read; an adapter is given exactly for a string `fixedAdapter` not starting 'signed-login:', as the one desired url; otherwise a string message is carried, anything else is the unknown error |
| ConnectAdapter.ConnectAdapter | src/lib/decentraland/communications/connect-adapter.ts:44-131 | livekit and ws-room exactly when one desired transport with the whole string; offline gives url ''; signed-login is the handshake on the url; every other protocol fails with its name; an adapter always has one transport for the scene id |
| ConnectAdapter.ConnectLocalAdapter | src/lib/decentraland/communications/connect-adapter.ts:12-39 | a local adapter, once obtained, wants exactly one transport, for the loaded scene's urn |
| ConnectAdapter.ConnectLocalAdapterCases | src/lib/decentraland/communications/connect-adapter.ts:12-39 | the gatekeeper's answer is used only when ok and with a truthy string `adapter`, which is then connected for the scene urn; a rejected fetch, a not-ok response, a nullish body, a falsy adapter and a non-string adapter each give their own error |
| ConnectAdapter.NoColonNoAdapter | src/lib/decentraland/communications/connect-adapter.ts:45-47 | a string without ':' has protocol '' and no adapter |
| ConnectAdapter.ForwardedStringKeepsProtocol | src/lib/decentraland/communications/connect-adapter.ts:50-59 | the livekit and ws-room adapters' url never fails in `connectTransport` for want of a protocol |
| ConnectAdapter.OfflineOpensNoTransport | src/lib/decentraland/communications/connect-adapter.ts:61-71 | 'offline:' strings give the single url '', which opens no transport |
| ConnectAdapter.HandshakeResultIsNotSignedLogin | src/lib/decentraland/communications/connect-adapter.ts:111-121 | a signed-login handshake never yields another signed-login string |
| Livekit.DecideSend | src/lib/decentraland/communications/transports/livekit.ts:83-98 | the guards in order: disposed, then more than 30 000 bytes, then not connected; publish exactly when all pass, each as an if-and-only-if |
| Livekit.CeilingIsInclusive | src/lib/decentraland/communications/transports/livekit.ts:89-92 | exactly 30 000 bytes may be published, 30 001 may not |
| Livekit.Kicked | src/lib/decentraland/communications/transports/livekit.ts:66 | kicked exactly for a duplicate identity |
| Livekit.LivekitAdapter.constructor | src/lib/decentraland/communications/transports/livekit.ts:29-34 | a new adapter is not disposed, its room disconnected, with no events and no calls |
| Livekit.LivekitAdapter.Connect | src/lib/decentraland/communications/transports/livekit.ts:78-81 | the room is asked to join with the configured url and token; connected when it resolves, an error otherwise |
| Livekit.LivekitAdapter.Send | src/lib/decentraland/communications/transports/livekit.ts:83-106 | nothing reaches the room unless every guard passes; a passing payload is published once, with its reliability and destinations; a failed one disconnects, ending disposed with one DISCONNECTION |
| Livekit.LivekitAdapter.Disconnect | src/lib/decentraland/communications/transports/livekit.ts:108-110 | the first disconnection leaves the room and emits DISCONNECTION not kicked; later ones change nothing |
| Livekit.LivekitAdapter.DoDisconnect | src/lib/decentraland/communications/transports/livekit.ts:112-120 | idempotent: the first call disposes, leaves the room and emits DISCONNECTION with its flag; DISCONNECTION is emitted exactly when disposed, once |
| Livekit.LivekitAdapter.OnParticipantConnected | src/lib/decentraland/communications/transports/livekit.ts:36-41 | exactly one PEER_CONNECTED with the identity |
| Livekit.LivekitAdapter.OnParticipantDisconnected | src/lib/decentraland/communications/transports/livekit.ts:42-48 | exactly one PEER_DISCONNECTED with the identity |
| Livekit.LivekitAdapter.OnRoomDisconnected | src/lib/decentraland/communications/transports/livekit.ts:49-70 | ignored once disposed; otherwise a disconnection kicked exactly for a duplicate identity |
| Livekit.LivekitAdapter.OnDataReceived | src/lib/decentraland/communications/transports/livekit.ts:71-75 | data without a participant is dropped; with one it is re-emitted with that identity and the payload unchanged |
| Livekit.LivekitAdapter.HandleMessage | src/lib/decentraland/communications/transports/livekit.ts:126-131 | exactly one `message` event with the address and the payload |
| Livekit.DisconnectTwice | src/lib/decentraland/communications/transports/livekit.ts:112-120 | three disconnections of any kind emit one DISCONNECTION, with the first caller's flag, and leave the room once |
| Resolution.IsDclEnsMeansNameWithSuffix | src/lib/decentraland/realm/resolution.ts:3-5 | `isDclEns` holds exactly for one or more ASCII alphanumerics followed by '.dcl.eth' |
| Resolution.IsEnsMeansNameWithSuffix | src/lib/decentraland/realm/resolution.ts:7-9 | `isEns` holds exactly for one or more ASCII alphanumerics followed by '.eth' |
| Resolution.IsDclEns | src/lib/decentraland/realm/resolution.ts:3-5 | the `^[a-zA-Z0-9]+\.dcl\.eth$` match: more than the suffix, ending in '.dcl.eth', alphanumerics before it; `IsDclEnsMeansNameWithSuffix` reads it as a name and the suffix |
| Resolution.IsEns | src/lib/decentraland/realm/resolution.ts:7-9 | the `^[a-zA-Z0-9]+\.eth$` match: more than the suffix, ending in '.eth', alphanumerics before it; `IsEnsMeansNameWithSuffix` reads it as a name and the suffix |
| Resolution.DclEnsIsNotEns | src/lib/decentraland/realm/resolution.ts:3-9 | no string satisfies both predicates |
| Resolution.EncodeUriComponent | src/lib/decentraland/realm/resolution.ts:12 | the encoding is at least as long as the input and made only of unreserved characters, '%' and upper-case hex digits |
| Resolution.EncodeIsIdentityIffUnreserved | src/lib/decentraland/realm/resolution.ts:12 | encoding leaves a string as it is exactly when all its characters are unreserved |
| Resolution.DclWorldUrl | src/lib/decentraland/realm/resolution.ts:11-13 | the url starts with the worlds content server's '/world/' path |
| Resolution.DclWorldUrlOfName | src/lib/decentraland/realm/resolution.ts:11-13 | a world name resolves to the worlds server followed by the lower-cased name, unencoded |
| Resolution.NormalizeUrl | src/lib/decentraland/realm/resolution.ts:15-17 | only a leading '://' is rewritten, to 'http://'; the result never starts with '://' |
| Resolution.UrlWithProtocol | src/lib/decentraland/realm/resolution.ts:20-29 | a leading '/' fails (and only it); 'http://' and 'https://' urls are kept, '://' becomes 'http://', anything else gets 'https://'; a result always has an http protocol |
| Resolution.UrlWithProtocolIdempotent | src/lib/decentraland/realm/resolution.ts:20-29 | applying it twice is applying it once |
| Resolution.ResolveRealmBaseUrl | src/lib/decentraland/realm/resolution.ts:31-44 | a world name goes to the worlds server with its lower-cased name; everything else, '.eth' names included, goes through `urlWithProtocol` |
| RealmCommunications.Transport.constructor | src/lib/decentraland/communications/realm-communications-system.ts:63 | the wrapper records its url, scene id and transport |
| RealmCommunications.HasUrl | src/lib/decentraland/communications/realm-communications-system.ts:52 | `find` by url succeeds exactly when some entry has the url |
| RealmCommunications.FirstWithUrl | src/lib/decentraland/communications/realm-communications-system.ts:52 | a position within the list names an entry with the url |
| RealmCommunications.FirstWithUrlIsFirst | src/lib/decentraland/communications/realm-communications-system.ts:52 | it is the first entry with the url |
| RealmCommunications.FirstWithUrlFindsAny | src/lib/decentraland/communications/realm-communications-system.ts:52 | it runs off the end exactly when no entry has the url |
| RealmCommunications.Undesired | src/lib/decentraland/communications/realm-communications-system.ts:51-58 | exactly the active urls no desired entry asks for |
| RealmCommunications.StripTrailingSlash | src/lib/decentraland/communications/realm-communications-system.ts:107 | one trailing '/' is removed; a string without one is kept |
| RealmCommunications.StripKeepsProtocol | src/lib/decentraland/communications/realm-communications-system.ts:107-110 | the `/about` url keeps the resolved url's http protocol |
| RealmCommunications.FirstMissing | src/lib/decentraland/communications/realm-communications-system.ts:61-62 | a position within the list names an entry whose url is not active |
| RealmCommunications.FirstMissingIsFirst | src/lib/decentraland/communications/realm-communications-system.ts:61-62 | an inactive entry after active ones is where it stops |
| RealmCommunications.BeforeFirstMissingIsActive | src/lib/decentraland/communications/realm-communications-system.ts:61-62 | every entry before it is active |
| RealmCommunications.OfflineAdapterWantsNoUrl | src/lib/decentraland/communications/realm-communications-system.ts:23 | the default 'offline:offline' adapter wants exactly one transport, with the url '', for the scene 'realm' |
| RealmCommunications.AdapterForRealm | src/lib/decentraland/communications/realm-communications-system.ts:22-23 | the adapter chosen for a realm: the gatekeeper for the local preview, else the fixed adapter, else 'offline:offline' for the scene 'realm'; `OfflineRealmOpensNothing` states the offline case |
| RealmCommunications.OfflineRealmOpensNothing | src/lib/decentraland/communications/realm-communications-system.ts:22-23 | a realm that is not the local preview and names no fixed adapter gets 'offline:offline', whose one url '' opens no transport |
| RealmCommunications.RealmCommunicationSystem.constructor | src/lib/decentraland/communications/realm-communications-system.ts:16-17 | no adapter, no transports, nothing pending |
| RealmCommunications.RealmCommunicationSystem.GetDesiredTransports | src/lib/decentraland/communications/realm-communications-system.ts:32-42 | empty without an adapter, otherwise the adapter's list |
| RealmCommunications.RealmCommunicationSystem.GetTransports | src/lib/decentraland/communications/realm-communications-system.ts:90-92 | exactly the values of the active map: every active transport is among them, and there are no more than active entries | |
| RealmCommunications.RealmCommunicationSystem.UpdateAdapters | src/lib/decentraland/communications/realm-communications-system.ts:46-83 | without identity nothing changes; a disconnect is started for each undesired url, which stays in the map; nothing active is removed or replaced; each new transport is fresh and built by `connectTransport` from the first entry with its url; on success every desired url is active; a failure is the error of the first inactive entry |
| RealmCommunications.RealmCommunicationSystem.StartUndesiredDisconnects | src/lib/decentraland/communications/realm-communications-system.ts:51-58 | exactly the undesired urls become pending, once each |
| RealmCommunications.RealmCommunicationSystem.ConnectMissing | src/lib/decentraland/communications/realm-communications-system.ts:61-82 | the second loop: kept entries stay, new ones come from the first entry with their url, success covers every desired url, failure names the first inactive entry |
| RealmCommunications.RealmCommunicationSystem.CreateTransport | src/lib/decentraland/communications/realm-communications-system.ts:62-66 | a fresh transport for the entry's url built from its first entry, or the first inactive entry's error |
| RealmCommunications.RealmCommunicationSystem.CompleteDisconnect | src/lib/decentraland/communications/realm-communications-system.ts:53-56 | the pending disconnect completes and the url leaves the map, whichever transport it holds |
| RealmCommunications.RealmCommunicationSystem.OnTransportDisconnection | src/lib/decentraland/communications/realm-communications-system.ts:68-74 | the url is evicted only while the map holds that same transport; otherwise nothing changes |
| RealmCommunications.RealmCommunicationSystem.LateUpdate | src/lib/decentraland/communications/realm-communications-system.ts:93-99 | `UpdateAdapters` on the current adapter's list: without identity nothing changes; the undesired urls start disconnecting and stay in the map; nothing active is lost or replaced; each new transport is fresh and built from the first entry with its url; on success each url of the list is active, and a failure is the first inactive entry's error; adapter, realm and disconnected adapters stay | |
| RealmCommunications.RealmCommunicationSystem.OnRealmChanged | src/lib/decentraland/communications/realm-communications-system.ts:19-28 | the local preview goes through the gatekeeper, other realms through their fixed adapter or 'offline:offline'; a failure changes nothing; on success the new adapter is current and the previous one, if any, is disconnected |
| RealmCommunications.RealmCommunicationSystem.SwapAdapter | src/lib/decentraland/communications/realm-communications-system.ts:24-27 | the new adapter is current and the old one, if any, is appended to the disconnected ones |
| RealmCommunications.RealmCommunicationSystem.ConnectRealm | src/lib/decentraland/communications/realm-communications-system.ts:103-123 | a resolution failure, a rejected `/about` fetch, a non-ok response and an unreadable body each fail with their own error and do not swap the realm; otherwise the realm becomes the base url stripped of one '/', the connection string and the parsed response; adapter, transports and pending and disconnected adapters never change | |
| Cli.Repeat | src/cli.ts:150 | n copies of the character |
| Cli.UpToEquals | src/cli.ts:163 | `split('=')[1]` after the flag: the prefix of the value up to its first '=', the whole value when it has none |
| Cli.Step | src/cli.ts:157-175 | one pass of the loop moves on by one argument, or by two when a flag took the next one as its value |
| Cli.ParseFrom | src/cli.ts:157-176 | the options the loop leaves when run from index `i`: one `Step` after another until the arguments run out; `ParseAppend` and the lemmas after it state what this means |
| Cli.Parse | src/cli.ts:145-179 | the options `parseArgs` returns: the loop from the first argument, starting at the defaults |
| Cli.ParseArgs | src/cli.ts:145-179 | the loop, with its extra `i++`, computes the options `Parse` defines |
| Cli.NoArgumentsGiveDefaults | src/cli.ts:147-154 | realm 'localhost:8000', '0x' and 40 zeros as address, a guest, no help |
| Cli.ParseAppend | src/cli.ts:156-176 | arguments read left to right: the later ones start from what the earlier ones left |
| Cli.LastRealmWins | src/cli.ts:162-163 | a final `--realm=v` sets the realm to v up to its first '=' ('' for `--realm=`) and changes nothing else |
| Cli.LastAddressWins | src/cli.ts:167-168 | the same for `--address=v` |
| Cli.ConsumedRealmIsNotAFlag | src/cli.ts:159-161 | `--realm v` takes a non-empty v as the realm, whatever it looks like |
| Cli.ConsumedAddressIsNotAFlag | src/cli.ts:164-166 | `--address v` takes a non-empty v as the address, whatever it looks like |
| Cli.TrailingRealmFlagIsIgnored | src/cli.ts:159-163 | a final `--realm` without a value sets nothing |
| Cli.LastIdentityModeWins | src/cli.ts:169-172 | the last of `--guest` and `--authenticated` decides, and nothing else changes |
| Cli.UnrecognisedIsIgnored | src/cli.ts:156-176 | an unrecognised argument changes nothing wherever it stands |
| Cli.GuestFlagOnlyFromModeFlags | src/cli.ts:169-172 | arguments other than `--guest` and `--authenticated` never change `isGuest` |
| Cli.HelpOnlyFromHelpFlags | src/cli.ts:173-175 | without `--help` or `-h`, `help` keeps its value |
| Cli.HelpFlagIsSeen | src/cli.ts:173-175 | a final `--help` or `-h` always sets `help` |

## Left out

- Strings.ToLower: lower-cases ASCII capitals only. Unicode case mapping is not modelled.
- Resolution.UrlWithProtocol: `new URL(relative)` without a base throws for every relative reference, so the '/' branch is an error. The WHATWG parser itself is not modelled.
- Resolution.EncodeUriComponent: works on Unicode scalar values. A lone surrogate, on which the source throws, is not a Dafny `char`.
- ConnectTransport.ConnectTransport: the url parse is a parameter. The livekit url is taken as the parser's `origin + pathname`.
  - The transports are described rather than constructed.
  - The identity and Babylon scene arguments are left out.
  - The ws-room adapter's internals are not part of this model.
- ConnectAdapter.ConnectLocalAdapter: the scene urn comes from `getLoadableSceneFromLocalContext(baseUrl)`. That loader is not part of this model, so the urn is a parameter.
  - The identity and the body of the signed request are left out.
  - The adapters' `reportPosition` and `disconnect` are stubs and are not modelled.
- RealmCommunications.RealmCommunicationSystem.UpdateAdapters: the user identity atom becomes a boolean.
  - The started `transport.connect()` is not modelled.
  - The DISCONNECTION subscription is a method the caller invokes (`OnTransportDisconnection`).
  - A started disconnect is pending until `CompleteDisconnect`; in between, events may interleave in any order the caller chooses.
  - The pending urls are added as one set after the first loop, because no step of that loop reads them.
- RealmCommunications.RealmCommunicationSystem.GetTransports: the map's value iterator is a set, so the iteration order is not modelled.
- RealmCommunications.RealmCommunicationSystem.LateUpdate: `applicationRunning` is never cleared in the code, so the guard is left out.
- RealmCommunications.RealmCommunicationSystem.OnRealmChanged: `currentRealm.pipe` is the caller's invocation.
  - The identity fetch is not modelled.
  - An adapter's `disconnect` is recorded, not run.
- RealmCommunications.RealmCommunicationSystem.ConnectRealm: the `/about` fetch is a parameter (a rejection, or a settled response whose `res.json()` may reject), and its body is reduced to the two fields read here.
- AvatarCommunication.AvatarCommunicationSystem.HandleProfileVersionAnnouncement: the Catalyst profile fetch (its url, status and JSON body) is the `FetchOutcome` argument. Handlers run one after another; a peer may leave while a fetch is in flight, and that race is not modelled.
- AvatarCommunication.AvatarCommunicationSystem.OnPeerConnected: mitt's `emit` is synchronous, so the `profileMessage` handler runs inside PEER_CONNECTED. Here `emitted` records the announcement and the caller runs `OnProfileMessage` for each entry, in order.
- AvatarCommunication.Subscription.GetUpdates: the serialised bytes written by `dumpCrdtDeltas` are modelled as the set of changed entities.
- LwwStore.Store.CreateOrReplace: the store's byte encoding and its merge of remote writes are not modelled; its only state is live values, tombstones and a write counter.
- Livekit.LivekitAdapter.Send: `proto.Packet.decode` of an oversized payload is only logged. Whether it returns or throws, nothing is published.
  - `localParticipant?.publishData` is modelled as always present.
- `update()` of the avatar system (`dumpCrdtUpdates` into a buffer that is dropped) is not modelled: it only clears the store's own dirty state.
- The `range` constants ([32, 256]) of the avatar system and its subscriptions are not modelled.
- `getAllPlayerEntities` and `getAllocatedEntities` are not separate operations: each returns a copy of a field, and the fields are values here.
- Console logging is not modelled, nor is the saved identity.
- Floating point: colours and poses are carried as `real`s with no arithmetic.
- The XMLHttpRequest polyfills, `printHelp`, `runHeadless`, signal handling and `process.argv` are not modelled; the arguments after the program name are a parameter.
- The ENS resolution branch (`isEns`) is empty in the code and has no effect.
- Rendering, scene runtime, RPC stubs and bootstrap files are outside this model.
