/** The avatar communication system of one transport: it turns peer events
    (connect, disconnect, position, profile announcement, chat) into writes
    on three component stores, the player-entity allocator and a versioned
    profile cache, and hands out subscriptions that pull per-component
    deltas. */
module AvatarCommunication {
  import opened Strings
  import opened EntityUtils
  import opened PlayerEntities
  import opened LwwStore

  // Floating-point values are carried as opaque numbers; no arithmetic is done on them.
  datatype Rgb = Rgb(r: real, g: real, b: real)
  datatype Vector3 = Vector3(x: real, y: real, z: real)
  datatype Quaternion = Quaternion(x: real, y: real, z: real, w: real)

  /** Component values. */
  datatype PlayerIdentityData = PlayerIdentityData(address: string, isGuest: bool)
  datatype AvatarBase = AvatarBase(name: string, bodyShapeUrn: string, skinColor: Rgb, eyesColor: Rgb, hairColor: Rgb)
  datatype Transform = Transform(position: Vector3, scale: Vector3, rotation: Quaternion, parent: int)

  /** The three synchronised components, in the order they are listed. */
  datatype Component = PlayerIdentityComponent | AvatarBaseComponent | TransformComponent

  const ComponentsToSynchronize: seq<Component> := [PlayerIdentityComponent, AvatarBaseComponent, TransformComponent]

  /** The position of a component in `ComponentsToSynchronize`, which is
      also the insertion order of every subscription's watermark map. */
  function Rank(c: Component): (i: nat)
    ensures i < |ComponentsToSynchronize| && ComponentsToSynchronize[i] == c
  {
    match c
    case PlayerIdentityComponent => 0
    case AvatarBaseComponent => 1
    case TransformComponent => 2
  }

  const DefaultSkinColor := Rgb(0.8, 0.6, 0.4)
  const DefaultEyesColor := Rgb(0.2, 0.5, 0.8)
  const DefaultHairColor := Rgb(0.3, 0.2, 0.1)
  const UnitScale := Vector3(1.0, 1.0, 1.0)
  const InitialProfileVersion := 1

  /** The fields of a fetched profile that the system reads; an absent
      field is `None`. */
  datatype AvatarInfo = AvatarInfo(bodyShape: Option<string>, skinColor: Option<Rgb>, eyesColor: Option<Rgb>, hairColor: Option<Rgb>)
  datatype Profile = Profile(version: Option<int>, hasConnectedWeb3: bool, name: Option<string>, avatar: Option<AvatarInfo>)

  /** What the profile fetch produced: an error (thrown), or the first
      avatar of the response, which may be missing. */
  datatype FetchOutcome = FetchFailed | Fetched(profile: Option<Profile>)

  datatype CachedProfile = CachedProfile(profile: Profile, version: int)

  datatype PositionData = PositionData(
    positionX: real, positionY: real, positionZ: real,
    rotationX: real, rotationY: real, rotationZ: real, rotationW: real)

  /** A `profileMessage` event emitted on the transport. */
  datatype ProfileAnnouncement = ProfileAnnouncement(address: string, profileVersion: int)

  /** Addresses are compared lower-cased. */
  function NormalizeAddress(address: string): (r: string)
    ensures |r| == |address| && IsLower(r)
    ensures IsLower(address) ==> r == address
    ensures ToLower(r) == r
  {
    ToLowerIsLower(address);
    ToLower(address)
  }

  /** The AvatarBase value built from a profile: the profile's fields where
      present, fixed defaults otherwise. */
  function AvatarBaseFromProfile(profile: Profile): (a: AvatarBase)
    ensures a.name != ""
    ensures profile.name.Some? && profile.name.value != "" ==> a.name == profile.name.value
    ensures profile.name.None? || profile.name.value == "" ==> a.name == "Unknown"
    ensures profile.avatar.None? ==>
              a.bodyShapeUrn == "" && a.skinColor == DefaultSkinColor &&
              a.eyesColor == DefaultEyesColor && a.hairColor == DefaultHairColor
    ensures profile.avatar.Some? ==>
              var info := profile.avatar.value;
              && a.bodyShapeUrn == (if info.bodyShape.Some? then info.bodyShape.value else "")
              && a.skinColor == (if info.skinColor.Some? then info.skinColor.value else DefaultSkinColor)
              && a.eyesColor == (if info.eyesColor.Some? then info.eyesColor.value else DefaultEyesColor)
              && a.hairColor == (if info.hairColor.Some? then info.hairColor.value else DefaultHairColor)
  {
    var name := if profile.name.Some? && profile.name.value != "" then profile.name.value else "Unknown";
    match profile.avatar
    case None =>
      AvatarBase(name, "", DefaultSkinColor, DefaultEyesColor, DefaultHairColor)
    case Some(info) =>
      AvatarBase(
        name,
        if info.bodyShape.Some? && info.bodyShape.value != "" then info.bodyShape.value else "",
        if info.skinColor.Some? then info.skinColor.value else DefaultSkinColor,
        if info.eyesColor.Some? then info.eyesColor.value else DefaultEyesColor,
        if info.hairColor.Some? then info.hairColor.value else DefaultHairColor)
  }

  /** A fetch result is applied when it holds a profile whose version is at
      least the announced one. */
  predicate Accepts(fetch: FetchOutcome, announcedVersion: int) {
    fetch.Fetched? && fetch.profile.Some? && fetch.profile.value.version.Some? &&
    fetch.profile.value.version.value >= announcedVersion
  }

  /** A fetch is issued unless the cache already holds the announced
      version or a later one. */
  predicate NeedsFetch(cache: map<string, CachedProfile>, address: string, announcedVersion: int) {
    address !in cache || cache[address].version < announcedVersion
  }

  /** An accepted profile strictly raises the cached version, and the same
      announcement (or any older one) is not fetched again. */
  lemma AcceptedProfileIsNotRefetched(cache: map<string, CachedProfile>, address: string, announcedVersion: int, p: Profile)
    requires NeedsFetch(cache, address, announcedVersion)
    requires Accepts(Fetched(Some(p)), announcedVersion)
    ensures var updated := cache[address := CachedProfile(p, p.version.value)];
            && (address in cache ==> updated[address].version > cache[address].version)
            && forall v :: v <= announcedVersion ==> !NeedsFetch(updated, address, v)
  {
  }

  /** The Transform a position event writes: unit scale, anchored to the
      global centre of coordinates. */
  function TransformFromPosition(data: PositionData, globalCenterOfCoordinates: int): (t: Transform)
    ensures t.scale == UnitScale && t.parent == globalCenterOfCoordinates
    ensures t.position == Vector3(data.positionX, data.positionY, data.positionZ)
    ensures t.rotation == Quaternion(data.rotationX, data.rotationY, data.rotationZ, data.rotationW)
  {
    Transform(
      Vector3(data.positionX, data.positionY, data.positionZ),
      UnitScale,
      Quaternion(data.rotationX, data.rotationY, data.rotationZ, data.rotationW),
      globalCenterOfCoordinates)
  }

  class AvatarCommunicationSystem {
    /** The allocator, passed in explicitly. */
    const manager: PlayerEntityManager
    /** The entity of the global centre of coordinates (a static entity of
        the scene runtime). */
    const globalCenterOfCoordinates: int

    var playerIdentityData: Store<PlayerIdentityData>
    var avatarBase: Store<AvatarBase>
    var transform: Store<Transform>
    var profileCache: map<string, CachedProfile>
    /** The `profileMessage` events this system emitted, in order. */
    var emitted: seq<ProfileAnnouncement>

    ghost predicate Valid()
      reads this, manager
    {
      manager.Valid() && playerIdentityData.Wf() && avatarBase.Wf() && transform.Wf()
    }

    constructor (manager: PlayerEntityManager, globalCenterOfCoordinates: int)
      requires manager.Valid()
      ensures Valid()
      ensures this.manager == manager && this.globalCenterOfCoordinates == globalCenterOfCoordinates
      ensures playerIdentityData == EmptyStore() && avatarBase == EmptyStore() && transform == EmptyStore()
      ensures profileCache == map[] && emitted == []
    {
      this.manager := manager;
      this.globalCenterOfCoordinates := globalCenterOfCoordinates;
      playerIdentityData := EmptyStore();
      avatarBase := EmptyStore();
      transform := EmptyStore();
      profileCache := map[];
      emitted := [];
    }

    /** The delta pull of one component's store. */
    function DumpComponent(c: Component, since: int): (r: (set<int>, int))
      reads this
      ensures r.1 >= 0
    {
      match c
      case PlayerIdentityComponent => playerIdentityData.DumpDeltas(since)
      case AvatarBaseComponent => avatarBase.DumpDeltas(since)
      case TransformComponent => transform.DumpDeltas(since)
    }

    /** What `findPlayerEntityByAddress(address, createIfMissing)` does to
        the allocator and which entity it returns: a mapped address keeps
        its entity and nothing changes; an unmapped one gives nothing
        without creation, and with it the allocator's remote branch runs on
        the lower-cased address, which yields an entity exactly when there
        is room. */
    twostate predicate Found(address: string, createIfMissing: bool, new entity: Option<int>)
      requires old(Valid())
      reads this, manager
    {
      var before := old(manager.GetEntityForAddress(address));
      && (before.Some? ==> entity == before && unchanged(manager))
      && (before.None? && !createIfMissing ==> entity == None && unchanged(manager))
      && (before.None? && createIfMissing ==>
            && (entity.Some? <==> old(manager.HasRoom()))
            && manager.RemoteAllocation(NormalizeAddress(address), entity))
    }

    /** The identity store after that lookup: an entity it allocated is
        seeded as a guest under the lower-cased address. */
    twostate function SeededIdentities(address: string, new entity: Option<int>): Store<PlayerIdentityData>
      reads this, manager
    {
      if old(manager.GetEntityForAddress(address)).None? && entity.Some? then
        old(playerIdentityData).CreateOrReplace(entity.value, PlayerIdentityData(NormalizeAddress(address), true))
      else old(playerIdentityData)
    }

    /** `findPlayerEntityByAddress`. */
    method FindPlayerEntityByAddress(address: string, createIfMissing: bool) returns (entity: Option<int>)
      requires Valid()
      modifies this, manager
      ensures Valid()
      ensures Found(address, createIfMissing, entity)
      // only an allocation writes, and only the guest identity
      ensures playerIdentityData == SeededIdentities(address, entity)
      ensures avatarBase == old(avatarBase) && transform == old(transform)
      ensures profileCache == old(profileCache) && emitted == old(emitted)
      ensures entity.Some? ==> entity.value != 0 && IsPlayerEntity(entity.value)
      // finding an existing entity, or none, writes nothing
      ensures old(manager.GetEntityForAddress(address)).Some? || entity.None? ==> unchanged(this) && unchanged(manager)
    {
      var normalizedAddress := NormalizeAddress(address);
      entity := manager.GetEntityForAddress(normalizedAddress);
      if entity.Some? {
        IsPlayerEntityOfManaged(entity.value);
        return;
      }

      if !createIfMissing {
        return None;
      }

      entity := manager.Allocate(normalizedAddress, false);
      if entity.None? {
        return None;
      }

      IsPlayerEntityOfManaged(entity.value);
      playerIdentityData := playerIdentityData.CreateOrReplace(entity.value, PlayerIdentityData(normalizedAddress, true));
    }

    /** The ids the allocator hands out are player entities, and none is 0. */
    static lemma IsPlayerEntityOfManaged(e: int)
      requires e == PlayerEntity || IsRemoteId(e)
      ensures e != 0 && IsPlayerEntity(e)
    {
      if e != PlayerEntity {
        UnpackRoundTrip(e);
      }
    }

    /** `updatePlayerComponents`. */
    method UpdatePlayerComponents(entity: int, address: string, profile: Profile)
      requires Valid()
      modifies this
      ensures Valid()
      ensures playerIdentityData ==
                old(playerIdentityData).CreateOrReplace(entity, PlayerIdentityData(address, !profile.hasConnectedWeb3))
      ensures avatarBase == old(avatarBase).CreateOrReplace(entity, AvatarBaseFromProfile(profile))
      ensures transform == old(transform) && profileCache == old(profileCache) && emitted == old(emitted)
    {
      playerIdentityData := playerIdentityData.CreateOrReplace(entity, PlayerIdentityData(address, !profile.hasConnectedWeb3));
      avatarBase := avatarBase.CreateOrReplace(entity, AvatarBaseFromProfile(profile));
    }

    /** `handleProfileVersionAnnouncement`, with the fetch's outcome as an
        argument; `fetched` says whether the fetch was issued at all. */
    method HandleProfileVersionAnnouncement(entity: int, address: string, announcedVersion: int, fetch: FetchOutcome)
      returns (fetched: bool)
      requires Valid()
      modifies this
      ensures Valid()
      // no fetch while the cache already holds the announced version
      ensures fetched <==> NeedsFetch(old(profileCache), address, announcedVersion)
      // failed, empty or outdated fetches change nothing
      ensures !(fetched && Accepts(fetch, announcedVersion)) ==> unchanged(this)
      // an accepted profile is cached at its own version and written to the components
      ensures fetched && Accepts(fetch, announcedVersion) ==>
                var p := fetch.profile.value;
                && profileCache == old(profileCache)[address := CachedProfile(p, p.version.value)]
                && playerIdentityData ==
                     old(playerIdentityData).CreateOrReplace(entity, PlayerIdentityData(address, !p.hasConnectedWeb3))
                && avatarBase == old(avatarBase).CreateOrReplace(entity, AvatarBaseFromProfile(p))
                && transform == old(transform) && emitted == old(emitted)
    {
      fetched := NeedsFetch(profileCache, address, announcedVersion);
      if fetched {
        match fetch
        case FetchFailed =>
        case Fetched(profile) =>
          if profile.Some? && profile.value.version.Some? && profile.value.version.value >= announcedVersion {
            var p := profile.value;
            profileCache := profileCache[address := CachedProfile(p, p.version.value)];
            UpdatePlayerComponents(entity, address, p);
          }
      }
    }

    /** `removePlayerEntity`. */
    method RemovePlayerEntity(entity: int, address: string)
      requires Valid()
      modifies this, manager
      ensures Valid()
      ensures playerIdentityData == old(playerIdentityData).EntityDeleted(entity, true)
      ensures avatarBase == old(avatarBase).EntityDeleted(entity, true)
      ensures transform == old(transform).EntityDeleted(entity, true)
      ensures profileCache == old(profileCache) - {NormalizeAddress(address)} && emitted == old(emitted)
      ensures manager.Freed(NormalizeAddress(address))
    {
      DeleteComponents(entity);
      manager.Free(address);
      var normalizedAddress := NormalizeAddress(address);
      profileCache := profileCache - {normalizedAddress};
    }

    /** The three `deleteFrom` calls of `removePlayerEntity`. */
    method DeleteComponents(entity: int)
      requires Valid()
      modifies this`playerIdentityData, this`avatarBase, this`transform
      ensures Valid()
      ensures playerIdentityData == old(playerIdentityData).EntityDeleted(entity, true)
      ensures avatarBase == old(avatarBase).EntityDeleted(entity, true)
      ensures transform == old(transform).EntityDeleted(entity, true)
    {
      playerIdentityData := playerIdentityData.EntityDeleted(entity, true);
      avatarBase := avatarBase.EntityDeleted(entity, true);
      transform := transform.EntityDeleted(entity, true);
    }

    /** PEER_CONNECTED: allocate (or find) the entity, then announce profile
        version 1 for it. The announcement stands for the synchronous
        `emit`, whose `profileMessage` handler the caller runs next
        (`OnProfileMessage`). */
    method OnPeerConnected(address: string) returns (entity: Option<int>)
      requires Valid()
      modifies this, manager
      ensures Valid()
      ensures Found(address, true, entity)
      ensures playerIdentityData == SeededIdentities(address, entity)
      // the initial version is announced exactly when there is an entity
      ensures emitted == old(emitted) + (if entity.Some? then [ProfileAnnouncement(NormalizeAddress(address), InitialProfileVersion)] else [])
      ensures avatarBase == old(avatarBase) && transform == old(transform) && profileCache == old(profileCache)
    {
      var normalizedAddress := NormalizeAddress(address);
      entity := FindPlayerEntityByAddress(normalizedAddress, true);
      if entity.Some? {
        emitted := emitted + [ProfileAnnouncement(normalizedAddress, InitialProfileVersion)];
      }
    }

    /** PEER_DISCONNECTED: remove a known peer's entity, free it and evict
        its cached profile; an unknown peer changes nothing. */
    method OnPeerDisconnected(address: string)
      requires Valid()
      modifies this, manager
      ensures Valid()
      ensures old(manager.GetEntityForAddress(address)).None? ==> unchanged(this) && unchanged(manager)
      ensures old(manager.GetEntityForAddress(address)).Some? ==>
                var e := old(manager.GetEntityForAddress(address)).value;
                && playerIdentityData == old(playerIdentityData).EntityDeleted(e, true)
                && avatarBase == old(avatarBase).EntityDeleted(e, true)
                && transform == old(transform).EntityDeleted(e, true)
                && profileCache == old(profileCache) - {NormalizeAddress(address)}
                && manager.Freed(NormalizeAddress(address))
      ensures emitted == old(emitted)
    {
      var entity := FindPlayerEntityByAddress(address, false);
      if entity.Some? {
        RemovePlayerEntity(entity.value, address);
      }
    }

    /** `position`: lazily allocate, then replace the Transform. */
    method OnPosition(address: string, data: PositionData) returns (entity: Option<int>)
      requires Valid()
      modifies this, manager
      ensures Valid()
      ensures Found(address, true, entity)
      ensures playerIdentityData == SeededIdentities(address, entity)
      ensures entity.Some? ==>
                transform == old(transform).CreateOrReplace(entity.value, TransformFromPosition(data, globalCenterOfCoordinates))
      ensures entity.None? ==> transform == old(transform)
      ensures avatarBase == old(avatarBase) && profileCache == old(profileCache) && emitted == old(emitted)
    {
      entity := FindPlayerEntityByAddress(address, true);
      if entity.Some? {
        var t := TransformFromPosition(data, globalCenterOfCoordinates);
        transform := transform.CreateOrReplace(entity.value, t);
      }
    }

    /** `profileMessage`: lazily allocate, then handle the announcement. */
    method OnProfileMessage(address: string, announcedVersion: int, fetch: FetchOutcome) returns (entity: Option<int>, fetched: bool)
      requires Valid()
      modifies this, manager
      ensures Valid()
      ensures Found(address, true, entity)
      // the fetch is issued for an entity whose cached profile is older than announced
      ensures fetched <==> entity.Some? && NeedsFetch(old(profileCache), NormalizeAddress(address), announcedVersion)
      // an accepted profile is cached and written over the seeded identity
      ensures fetched && Accepts(fetch, announcedVersion) ==>
                var p := fetch.profile.value;
                && profileCache == old(profileCache)[NormalizeAddress(address) := CachedProfile(p, p.version.value)]
                && playerIdentityData ==
                     SeededIdentities(address, entity).CreateOrReplace(entity.value, PlayerIdentityData(NormalizeAddress(address), !p.hasConnectedWeb3))
                && avatarBase == old(avatarBase).CreateOrReplace(entity.value, AvatarBaseFromProfile(p))
      // otherwise only the lookup has written
      ensures !(fetched && Accepts(fetch, announcedVersion)) ==>
                && profileCache == old(profileCache) && avatarBase == old(avatarBase)
                && playerIdentityData == SeededIdentities(address, entity)
      ensures transform == old(transform) && emitted == old(emitted)
    {
      var normalizedAddress := NormalizeAddress(address);
      entity := FindPlayerEntityByAddress(address, true);
      fetched := false;
      if entity.Some? {
        fetched := HandleProfileVersionAnnouncement(entity.value, normalizedAddress, announcedVersion, fetch);
      }
    }

    /** `chatMessage`: its only effect is the lazy allocation. */
    method OnChatMessage(address: string) returns (entity: Option<int>)
      requires Valid()
      modifies this, manager
      ensures Valid()
      ensures Found(address, true, entity)
      ensures playerIdentityData == SeededIdentities(address, entity)
      ensures avatarBase == old(avatarBase) && transform == old(transform)
      ensures profileCache == old(profileCache) && emitted == old(emitted)
    {
      entity := FindPlayerEntityByAddress(address, true);
    }

    /** `dispose`: release the allocator and the profile cache. */
    method Dispose()
      requires Valid()
      modifies this, manager
      ensures Valid()
      ensures profileCache == map[]
      ensures manager.allocatedEntities == {} && manager.addressToEntity == map[] && manager.entityToAddress == map[]
      ensures manager.entityVersions == map[] && manager.nextEntityNumber == OtherPlayerEntitiesFrom
      ensures playerIdentityData == old(playerIdentityData) && avatarBase == old(avatarBase) && transform == old(transform)
      ensures emitted == old(emitted)
    {
      manager.Clear();
      profileCache := map[];
    }
  }

  /** The replication handle of `createSubscription`: one delta watermark
      per component. */
  class Subscription {
    const system: AvatarCommunicationSystem
    var state: map<Component, int>

    /** `createSubscription`: every watermark starts at -1. */
    constructor (system: AvatarCommunicationSystem)
      ensures this.system == system
      ensures state == map[PlayerIdentityComponent := -1, AvatarBaseComponent := -1, TransformComponent := -1]
    {
      this.system := system;
      state := map[PlayerIdentityComponent := -1, AvatarBaseComponent := -1, TransformComponent := -1];
    }

    /** `getUpdates`: pull each component's deltas since its own watermark
        and move that watermark to the value the pull returned. */
    method GetUpdates() returns (deltas: map<Component, set<int>>)
      modifies this
      ensures state.Keys == old(state.Keys) && deltas.Keys == state.Keys
      ensures forall c :: c in state ==>
                state[c] == system.DumpComponent(c, old(state)[c]).1 &&
                deltas[c] == system.DumpComponent(c, old(state)[c]).0
    {
      deltas := map[];
      ghost var before := state;
      for i := 0 to |ComponentsToSynchronize|
        invariant state.Keys == before.Keys
        invariant forall c :: c in deltas <==> c in before && Rank(c) < i
        invariant forall c :: c in before && Rank(c) < i ==>
                    state[c] == system.DumpComponent(c, before[c]).1 && deltas[c] == system.DumpComponent(c, before[c]).0
        invariant forall c :: c in before && i <= Rank(c) ==> state[c] == before[c]
      {
        var component := ComponentsToSynchronize[i];
        assert Rank(component) == i;
        if component in state {
          var (changed, newTick) := system.DumpComponent(component, state[component]);
          deltas := deltas[component := changed];
          state := state[component := newTick];
        }
      }
    }

    /** `dispose`: forget the watermarks, clear the allocator and the cache. */
    method Dispose()
      requires system.Valid()
      modifies this, system, system.manager
      ensures system.Valid()
      ensures state == map[] && system.profileCache == map[]
      ensures system.manager.allocatedEntities == {} && system.manager.addressToEntity == map[]
      ensures system.manager.entityToAddress == map[] && system.manager.entityVersions == map[]
      ensures system.manager.nextEntityNumber == OtherPlayerEntitiesFrom
      // the component stores keep their values, and nothing is announced
      ensures system.playerIdentityData == old(system.playerIdentityData) && system.avatarBase == old(system.avatarBase)
      ensures system.transform == old(system.transform) && system.emitted == old(system.emitted)
    {
      state := map[];
      system.Dispose();
    }
  }
}
