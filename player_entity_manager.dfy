/** Bit packing of entity identifiers: a 16-bit slot number in the low half
    and a 16-bit version (generation) in the high half of a 32-bit value. */
module EntityUtils {

  const MaxU16 := 0xFFFF
  const Two16 := 0x1_0000
  const Two32 := 0x1_0000_0000

  predicate IsU16(x: int) { 0 <= x <= MaxU16 }

  predicate IsU32(x: int) { 0 <= x < Two32 }

  /** `((n & 0xffff) | ((v & 0xffff) << 16)) >>> 0`. For integer inputs
      JavaScript's `& 0xffff` is the Euclidean remainder modulo 2^16, and the
      final `>>> 0` reads the 32 bits as an unsigned number. */
  function ToEntityId(entityNumber: int, entityVersion: int): (id: int)
    ensures IsU32(id)
    ensures id % Two16 == entityNumber % Two16
    ensures id / Two16 == entityVersion % Two16
  {
    entityNumber % Two16 + (entityVersion % Two16) * Two16
  }

  /** `[(id & 0xffff) >>> 0, (((id & 0xffff0000) >> 16) & 0xffff) >>> 0]`:
      the low and the high 16 bits of the id read as a 32-bit value. */
  function FromEntityId(entityId: int): (r: (int, int))
    ensures IsU16(r.0) && IsU16(r.1)
    ensures r.0 + r.1 * Two16 == entityId % Two32
  {
    var u := entityId % Two32;
    (u % Two16, u / Two16)
  }

  /** Unpacking a packed pair of 16-bit values gives the pair back. */
  lemma RoundTrip(entityNumber: int, entityVersion: int)
    requires IsU16(entityNumber) && IsU16(entityVersion)
    ensures FromEntityId(ToEntityId(entityNumber, entityVersion)) == (entityNumber, entityVersion)
  {
    var id := ToEntityId(entityNumber, entityVersion);
    assert id == entityNumber + entityVersion * Two16;
    assert id % Two32 == id;
  }

  /** Packing the two halves of a 32-bit id gives the id back. */
  lemma UnpackRoundTrip(entityId: int)
    requires IsU32(entityId)
    ensures ToEntityId(FromEntityId(entityId).0, FromEntityId(entityId).1) == entityId
  {
  }

  /** Each input is masked to 16 bits: only its low 16 bits matter. */
  lemma ToEntityIdMasks(entityNumber: int, entityVersion: int)
    ensures ToEntityId(entityNumber, entityVersion) == ToEntityId(entityNumber % Two16, entityVersion % Two16)
    ensures ToEntityId(entityNumber + Two16, entityVersion) == ToEntityId(entityNumber, entityVersion)
    ensures ToEntityId(entityNumber, entityVersion + Two16) == ToEntityId(entityNumber, entityVersion)
  {
  }

  /** Distinct 16-bit pairs pack to distinct ids. */
  lemma ToEntityIdInjective(n1: int, v1: int, n2: int, v2: int)
    requires IsU16(n1) && IsU16(v1) && IsU16(n2) && IsU16(v2)
    requires ToEntityId(n1, v1) == ToEntityId(n2, v2)
    ensures n1 == n2 && v1 == v2
  {
    RoundTrip(n1, v1);
    RoundTrip(n2, v2);
  }
}

/** The allocator of reserved player entities: the local player's fixed
    entity 1 and a pool of versioned remote-player entities whose slot
    numbers lie in [32, 256). */
module PlayerEntities {
  import opened Strings
  import opened EntityUtils

  const PlayerEntity := 1
  const OtherPlayerEntitiesFrom := 32
  const OtherPlayerEntitiesTo := 256

  function Slot(entityId: int): int { FromEntityId(entityId).0 }

  function Version(entityId: int): int { FromEntityId(entityId).1 }

  predicate InRemoteRange(entityNumber: int) {
    OtherPlayerEntitiesFrom <= entityNumber < OtherPlayerEntitiesTo
  }

  /** An id the remote pool can hand out: a 32-bit value whose slot lies in
      the remote range. */
  predicate IsRemoteId(entityId: int) {
    IsU32(entityId) && InRemoteRange(Slot(entityId))
  }

  /** `isPlayerEntity`: a pure range test on the id, whether or not
      the id is currently registered. */
  predicate IsPlayerEntity(entityId: int) {
    entityId == PlayerEntity || InRemoteRange(FromEntityId(entityId).0)
  }

  /** Every id packed from a remote slot is a player entity, whatever its
      version; the local id is one too; nothing else in the low slots is. */
  lemma IsPlayerEntityRange(entityNumber: int, entityVersion: int)
    requires IsU16(entityNumber) && IsU16(entityVersion)
    ensures IsPlayerEntity(ToEntityId(entityNumber, entityVersion)) <==>
              InRemoteRange(entityNumber) || ToEntityId(entityNumber, entityVersion) == PlayerEntity
    ensures IsPlayerEntity(ToEntityId(entityNumber, entityVersion)) <==>
              InRemoteRange(entityNumber) || (entityNumber == 1 && entityVersion == 0)
  {
    RoundTrip(entityNumber, entityVersion);
    if ToEntityId(entityNumber, entityVersion) == PlayerEntity {
      RoundTrip(1, 0);
      ToEntityIdInjective(entityNumber, entityVersion, 1, 0);
    }
  }

  /** The allocator's invariant, over the values of its five fields. */
  ghost predicate Inv(live: set<int>, addressToEntity: map<string, int>, entityToAddress: map<int, string>,
                      versions: map<int, int>, next: int)
  {
    && OtherPlayerEntitiesFrom <= next <= OtherPlayerEntitiesTo
    // the slots issued so far, each with its highest version
    && (forall n :: n in versions <==> OtherPlayerEntitiesFrom <= n < next)
    && (forall n :: n in versions ==> IsU16(versions[n]))
    // live ids are remote ids of issued slots at an issued version
    && (forall e :: e in live ==> IsRemoteId(e) && Slot(e) < next && Version(e) <= versions[Slot(e)])
    && (forall e :: e in live ==> e in entityToAddress)
    // addresses are stored lower-cased; a remote address's id is live and maps back
    && (forall a :: a in addressToEntity ==> IsLower(a))
    && (forall a :: a in addressToEntity ==>
          addressToEntity[a] == PlayerEntity ||
          (addressToEntity[a] in live && addressToEntity[a] in entityToAddress &&
           entityToAddress[addressToEntity[a]] == a))
    && (forall e :: e in entityToAddress ==>
          entityToAddress[e] in addressToEntity && addressToEntity[entityToAddress[e]] == e)
  }

  lemma InvAddLocal(live: set<int>, a2e: map<string, int>, e2a: map<int, string>,
                    versions: map<int, int>, next: int, a: string)
    requires Inv(live, a2e, e2a, versions, next)
    requires IsLower(a) && a !in a2e
    ensures Inv(live, a2e[a := PlayerEntity], e2a[PlayerEntity := a], versions, next)
  {
  }

  lemma InvAddRemote(live: set<int>, a2e: map<string, int>, e2a: map<int, string>,
                     versions: map<int, int>, next: int, a: string, e: int)
    requires Inv(live, a2e, e2a, versions, next)
    requires IsLower(a) && a !in a2e
    requires IsRemoteId(e) && e !in live && Slot(e) < next && Version(e) <= versions[Slot(e)]
    ensures Inv(live + {e}, a2e[a := e], e2a[e := a], versions, next)
  {
    assert e != PlayerEntity;
    assert e !in e2a;
  }

  lemma InvBumpVersion(live: set<int>, a2e: map<string, int>, e2a: map<int, string>,
                       versions: map<int, int>, next: int, n: int)
    requires Inv(live, a2e, e2a, versions, next)
    requires n in versions && versions[n] < MaxU16
    ensures Inv(live, a2e, e2a, versions[n := versions[n] + 1], next)
  {
  }

  lemma InvNewSlot(live: set<int>, a2e: map<string, int>, e2a: map<int, string>,
                   versions: map<int, int>, next: int)
    requires Inv(live, a2e, e2a, versions, next)
    requires next < OtherPlayerEntitiesTo
    ensures Inv(live, a2e, e2a, versions[next := 0], next + 1)
  {
  }

  lemma InvFreeLocal(live: set<int>, a2e: map<string, int>, e2a: map<int, string>,
                     versions: map<int, int>, next: int, a: string)
    requires Inv(live, a2e, e2a, versions, next)
    requires a in a2e && a2e[a] == PlayerEntity
    ensures Inv(live, a2e - {a}, e2a - {PlayerEntity}, versions, next)
  {
  }

  lemma InvFreeRemote(live: set<int>, a2e: map<string, int>, e2a: map<int, string>,
                      versions: map<int, int>, next: int, a: string)
    requires Inv(live, a2e, e2a, versions, next)
    requires a in a2e && a2e[a] != PlayerEntity
    ensures Inv(live - {a2e[a]}, a2e - {a}, e2a - {a2e[a]}, versions, next)
  {
  }

  class PlayerEntityManager {
    var allocatedEntities: set<int>
    var addressToEntity: map<string, int>
    var entityToAddress: map<int, string>
    /** slot number -> highest version issued. Keys are only ever inserted
        by fresh allocation, in the order of `nextEntityNumber`, so the
        map's iteration order is ascending slot order. */
    var entityVersions: map<int, int>
    var nextEntityNumber: int

    ghost predicate Valid()
      reads this
    {
      Inv(allocatedEntities, addressToEntity, entityToAddress, entityVersions, nextEntityNumber)
    }

    /** Slot `n` can be reused at its next version (the test of the loop
        over `entityVersions`). */
    ghost predicate Reusable(n: int)
      reads this
    {
      && n in entityVersions
      && InRemoteRange(n)
      && entityVersions[n] < MaxU16
      && ToEntityId(n, entityVersions[n] + 1) !in allocatedEntities
    }

    /** The first reusable slot at or after `n`, in iteration order. */
    ghost function FirstReusableFrom(n: int): (r: Option<int>)
      reads this
      requires Valid() && OtherPlayerEntitiesFrom <= n
      ensures r.Some? ==> n <= r.value < nextEntityNumber && Reusable(r.value)
      ensures forall m :: n <= m < nextEntityNumber && (r.None? || m < r.value) ==> !Reusable(m)
      decreases nextEntityNumber - n
    {
      if n >= nextEntityNumber then None
      else if Reusable(n) then Some(n)
      else FirstReusableFrom(n + 1)
    }

    ghost function FirstReusable(): Option<int>
      reads this
      requires Valid()
    {
      FirstReusableFrom(OtherPlayerEntitiesFrom)
    }

    /** Some remote id can still be handed out: a slot can be reused or a
        fresh one taken. */
    ghost predicate HasRoom()
      reads this
      requires Valid()
    {
      FirstReusable().Some? || nextEntityNumber < OtherPlayerEntitiesTo
    }

    /** The new id `e` is live and mapped both ways to the address. */
    twostate predicate Registered(normalizedAddress: string, e: int)
      reads this
    {
      && allocatedEntities == old(allocatedEntities) + {e}
      && addressToEntity == old(addressToEntity)[normalizedAddress := e]
      && entityToAddress == old(entityToAddress)[e := normalizedAddress]
    }

    /** The remote branch of `allocateEntityForPlayer`, for an address not
        mapped yet, as a relation between the state before and after: the
        first reusable slot at its next version, else slot
        `nextEntityNumber` at version 0, else no id and no change. */
    twostate predicate RemoteAllocation(normalizedAddress: string, new id: Option<int>)
      requires old(Valid())
      reads this
    {
      var first := old(FirstReusable());
      && (first.Some? ==>
            var n := first.value;
            var e := ToEntityId(n, old(entityVersions)[n] + 1);
            && id == Some(e)
            && entityVersions == old(entityVersions)[n := old(entityVersions)[n] + 1]
            && nextEntityNumber == old(nextEntityNumber)
            && Registered(normalizedAddress, e))
      && (first.None? && old(nextEntityNumber) < OtherPlayerEntitiesTo ==>
            var e := ToEntityId(old(nextEntityNumber), 0);
            && id == Some(e)
            && entityVersions == old(entityVersions)[old(nextEntityNumber) := 0]
            && nextEntityNumber == old(nextEntityNumber) + 1
            && Registered(normalizedAddress, e))
      && (first.None? && old(nextEntityNumber) == OtherPlayerEntitiesTo ==>
            && id == None
            && allocatedEntities == old(allocatedEntities)
            && addressToEntity == old(addressToEntity) && entityToAddress == old(entityToAddress)
            && entityVersions == old(entityVersions) && nextEntityNumber == old(nextEntityNumber))
    }

    /** `freeEntityForPlayer` on a lower-cased address, as a relation between
        the state before and after: an unmapped address changes nothing; the
        local player loses both mappings but entity 1 was never live; a
        remote id leaves the live set and both maps. Versions and the slot
        counter stay. */
    twostate predicate Freed(normalizedAddress: string)
      reads this
    {
      var a := normalizedAddress;
      && entityVersions == old(entityVersions) && nextEntityNumber == old(nextEntityNumber)
      && (a !in old(addressToEntity) ==>
            && allocatedEntities == old(allocatedEntities)
            && addressToEntity == old(addressToEntity) && entityToAddress == old(entityToAddress))
      && (a in old(addressToEntity) && old(addressToEntity)[a] == PlayerEntity ==>
            && addressToEntity == old(addressToEntity) - {a}
            && entityToAddress == old(entityToAddress) - {PlayerEntity}
            && allocatedEntities == old(allocatedEntities))
      && (a in old(addressToEntity) && old(addressToEntity)[a] != PlayerEntity ==>
            var e := old(addressToEntity)[a];
            && addressToEntity == old(addressToEntity) - {a}
            && entityToAddress == old(entityToAddress) - {e}
            && allocatedEntities == old(allocatedEntities) - {e})
    }

    constructor ()
      ensures Valid()
      ensures allocatedEntities == {} && addressToEntity == map[] && entityToAddress == map[]
      ensures entityVersions == map[] && nextEntityNumber == OtherPlayerEntitiesFrom
    {
      allocatedEntities := {};
      addressToEntity := map[];
      entityToAddress := map[];
      entityVersions := map[];
      nextEntityNumber := OtherPlayerEntitiesFrom;
    }

    /** `allocateEntityForPlayer`. */
    method Allocate(address: string, isLocalPlayer: bool) returns (id: Option<int>)
      requires Valid()
      modifies this
      ensures Valid()
      // an address already mapped (case-insensitively) keeps its id and nothing changes
      ensures ToLower(address) in old(addressToEntity) ==>
                id == Some(old(addressToEntity)[ToLower(address)]) && unchanged(this)
      // the local player always gets entity 1; only the two address maps change
      ensures ToLower(address) !in old(addressToEntity) && isLocalPlayer ==>
                && id == Some(PlayerEntity)
                && addressToEntity == old(addressToEntity)[ToLower(address) := PlayerEntity]
                && entityToAddress == old(entityToAddress)[PlayerEntity := ToLower(address)]
                && allocatedEntities == old(allocatedEntities)
                && entityVersions == old(entityVersions)
                && nextEntityNumber == old(nextEntityNumber)
      // reuse: the first reusable slot, at its next version
      ensures ToLower(address) !in old(addressToEntity) && !isLocalPlayer && old(FirstReusable()).Some? ==>
                var n := old(FirstReusable()).value;
                var e := ToEntityId(n, old(entityVersions)[n] + 1);
                && id == Some(e)
                && entityVersions == old(entityVersions)[n := old(entityVersions)[n] + 1]
                && allocatedEntities == old(allocatedEntities) + {e}
                && addressToEntity == old(addressToEntity)[ToLower(address) := e]
                && entityToAddress == old(entityToAddress)[e := ToLower(address)]
                && nextEntityNumber == old(nextEntityNumber)
      // fresh: slot `nextEntityNumber` at version 0
      ensures ToLower(address) !in old(addressToEntity) && !isLocalPlayer && old(FirstReusable()).None? &&
              old(nextEntityNumber) < OtherPlayerEntitiesTo ==>
                var e := ToEntityId(old(nextEntityNumber), 0);
                && id == Some(e)
                && entityVersions == old(entityVersions)[old(nextEntityNumber) := 0]
                && allocatedEntities == old(allocatedEntities) + {e}
                && addressToEntity == old(addressToEntity)[ToLower(address) := e]
                && entityToAddress == old(entityToAddress)[e := ToLower(address)]
                && nextEntityNumber == old(nextEntityNumber) + 1
      // exhausted: no id and no change
      ensures ToLower(address) !in old(addressToEntity) && !isLocalPlayer && old(FirstReusable()).None? &&
              old(nextEntityNumber) == OtherPlayerEntitiesTo ==>
                id == None && unchanged(this)
      // a remote player gets an id exactly when there is room
      ensures ToLower(address) !in old(addressToEntity) && !isLocalPlayer ==>
                (id.Some? <==> old(HasRoom())) && RemoteAllocation(ToLower(address), id)
      // a new remote id was not live before and is live now
      ensures ToLower(address) !in old(addressToEntity) && !isLocalPlayer && id.Some? ==>
                id.value !in old(allocatedEntities) && id.value in allocatedEntities && IsRemoteId(id.value)
      // recorded versions only grow
      ensures forall n :: n in old(entityVersions) ==>
                n in entityVersions && old(entityVersions)[n] <= entityVersions[n]
    {
      var normalizedAddress := ToLower(address);
      ToLowerIsLower(address);
      if normalizedAddress in addressToEntity {
        return Some(addressToEntity[normalizedAddress]);
      }

      if isLocalPlayer {
        InvAddLocal(allocatedEntities, addressToEntity, entityToAddress, entityVersions, nextEntityNumber, normalizedAddress);
        addressToEntity := addressToEntity[normalizedAddress := PlayerEntity];
        entityToAddress := entityToAddress[PlayerEntity := normalizedAddress];
        return Some(PlayerEntity);
      }

      id := AllocateRemote(normalizedAddress);
    }

    /** The remote branch of `allocateEntityForPlayer`, for an address not
        mapped yet: reuse the first reusable slot at its next version, else
        take the next fresh slot at version 0, else give up. */
    method AllocateRemote(normalizedAddress: string) returns (id: Option<int>)
      requires Valid()
      requires IsLower(normalizedAddress) && normalizedAddress !in addressToEntity
      modifies this
      ensures Valid()
      ensures RemoteAllocation(normalizedAddress, id)
      ensures id.Some? <==> old(HasRoom())
      ensures id.None? ==> unchanged(this)
      ensures id.Some? ==> id.value !in old(allocatedEntities) && id.value in allocatedEntities && IsRemoteId(id.value)
      ensures forall n :: n in old(entityVersions) ==>
                n in entityVersions && old(entityVersions)[n] <= entityVersions[n]
    {
      // try to reuse a slot at its next version, in iteration order
      var reusable := FindReusable();
      if reusable.Some? {
        var e := ReuseSlot(normalizedAddress, reusable.value);
        return Some(e);
      }

      // otherwise take a fresh slot
      if nextEntityNumber < OtherPlayerEntitiesTo {
        var e := TakeFreshSlot(normalizedAddress);
        return Some(e);
      }

      return None;
    }

    /** Reuse of slot `n`: its version goes up by one and the id at that
        version is registered. */
    method ReuseSlot(normalizedAddress: string, n: int) returns (newEntity: int)
      requires Valid()
      requires IsLower(normalizedAddress) && normalizedAddress !in addressToEntity
      requires n in entityVersions && entityVersions[n] < MaxU16
      requires ToEntityId(n, entityVersions[n] + 1) !in allocatedEntities
      modifies this`entityVersions, this`allocatedEntities, this`addressToEntity, this`entityToAddress
      ensures Valid()
      ensures newEntity == ToEntityId(n, old(entityVersions)[n] + 1) && IsRemoteId(newEntity)
      ensures entityVersions == old(entityVersions)[n := old(entityVersions)[n] + 1]
      ensures allocatedEntities == old(allocatedEntities) + {newEntity}
      ensures addressToEntity == old(addressToEntity)[normalizedAddress := newEntity]
      ensures entityToAddress == old(entityToAddress)[newEntity := normalizedAddress]
    {
      var currentVersion := entityVersions[n];
      newEntity := ToEntityId(n, currentVersion + 1);
      RoundTrip(n, currentVersion + 1);
      InvBumpVersion(allocatedEntities, addressToEntity, entityToAddress, entityVersions, nextEntityNumber, n);
      entityVersions := entityVersions[n := currentVersion + 1];
      Register(normalizedAddress, newEntity);
    }

    /** A fresh slot: `nextEntityNumber` is taken at version 0 and the id
        registered. */
    method TakeFreshSlot(normalizedAddress: string) returns (newEntity: int)
      requires Valid()
      requires IsLower(normalizedAddress) && normalizedAddress !in addressToEntity
      requires nextEntityNumber < OtherPlayerEntitiesTo
      modifies this`nextEntityNumber, this`entityVersions, this`allocatedEntities, this`addressToEntity, this`entityToAddress
      ensures Valid()
      ensures newEntity == ToEntityId(old(nextEntityNumber), 0) && IsRemoteId(newEntity)
      ensures newEntity !in old(allocatedEntities)
      ensures nextEntityNumber == old(nextEntityNumber) + 1
      ensures entityVersions == old(entityVersions)[old(nextEntityNumber) := 0]
      ensures allocatedEntities == old(allocatedEntities) + {newEntity}
      ensures addressToEntity == old(addressToEntity)[normalizedAddress := newEntity]
      ensures entityToAddress == old(entityToAddress)[newEntity := normalizedAddress]
    {
      var entityNumber := nextEntityNumber;
      InvNewSlot(allocatedEntities, addressToEntity, entityToAddress, entityVersions, nextEntityNumber);
      nextEntityNumber := nextEntityNumber + 1;
      newEntity := ToEntityId(entityNumber, 0);
      RoundTrip(entityNumber, 0);
      entityVersions := entityVersions[entityNumber := 0];
      Register(normalizedAddress, newEntity);
    }

    /** The last step of both remote branches of `allocateEntityForPlayer`:
        the new id becomes live and is mapped both ways. */
    method Register(normalizedAddress: string, newEntity: int)
      requires Valid()
      requires IsLower(normalizedAddress) && normalizedAddress !in addressToEntity
      requires IsRemoteId(newEntity) && newEntity !in allocatedEntities
      requires Slot(newEntity) < nextEntityNumber && Version(newEntity) <= entityVersions[Slot(newEntity)]
      modifies this`allocatedEntities, this`addressToEntity, this`entityToAddress
      ensures Valid()
      ensures allocatedEntities == old(allocatedEntities) + {newEntity}
      ensures addressToEntity == old(addressToEntity)[normalizedAddress := newEntity]
      ensures entityToAddress == old(entityToAddress)[newEntity := normalizedAddress]
    {
      InvAddRemote(allocatedEntities, addressToEntity, entityToAddress, entityVersions, nextEntityNumber,
                   normalizedAddress, newEntity);
      allocatedEntities := allocatedEntities + {newEntity};
      addressToEntity := addressToEntity[normalizedAddress := newEntity];
      entityToAddress := entityToAddress[newEntity := normalizedAddress];
    }

    /** The loop of `allocateEntityForPlayer` over `entityVersions` that
        stops at the first slot whose next version is in range and not live. */
    method FindReusable() returns (r: Option<int>)
      requires Valid()
      ensures r == FirstReusable()
      ensures r.Some? ==> r.value in entityVersions && entityVersions[r.value] < MaxU16 &&
                          ToEntityId(r.value, entityVersions[r.value] + 1) !in allocatedEntities
    {
      var n := OtherPlayerEntitiesFrom;
      while n < nextEntityNumber
        invariant OtherPlayerEntitiesFrom <= n <= nextEntityNumber
        invariant FirstReusableFrom(n) == FirstReusable()
      {
        var currentVersion := entityVersions[n];
        if InRemoteRange(n) {
          if currentVersion < MaxU16 {
            var newEntity := ToEntityId(n, currentVersion + 1);
            if newEntity !in allocatedEntities {
              return Some(n);
            }
          }
        }
        n := n + 1;
      }
      return None;
    }

    /** `freeEntityForPlayer`. */
    method Free(address: string)
      requires Valid()
      modifies this
      ensures Valid()
      ensures Freed(ToLower(address))
    {
      var normalizedAddress := ToLower(address);
      if normalizedAddress in addressToEntity {
        var entityId := addressToEntity[normalizedAddress];
        if entityId == PlayerEntity {
          InvFreeLocal(allocatedEntities, addressToEntity, entityToAddress, entityVersions, nextEntityNumber, normalizedAddress);
          addressToEntity := addressToEntity - {normalizedAddress};
          entityToAddress := entityToAddress - {entityId};
          return;
        }

        InvFreeRemote(allocatedEntities, addressToEntity, entityToAddress, entityVersions, nextEntityNumber, normalizedAddress);
        var entityNumber := FromEntityId(entityId).0;
        if InRemoteRange(entityNumber) {
          allocatedEntities := allocatedEntities - {entityId};
        }

        addressToEntity := addressToEntity - {normalizedAddress};
        entityToAddress := entityToAddress - {entityId};
      }
    }

    /** `getAddressForEntity`: `map.get(id) || null`, so an empty address
        reads as absent too. */
    function GetAddressForEntity(entityId: int): (r: Option<string>)
      reads this
      ensures r.Some? <==> entityId in entityToAddress && entityToAddress[entityId] != ""
      ensures r.Some? ==> r.value == entityToAddress[entityId]
    {
      if entityId in entityToAddress && entityToAddress[entityId] != "" then Some(entityToAddress[entityId]) else None
    }

    /** `getEntityForAddress`: `map.get(lower(address)) || null`, so an id 0
        would read as absent; no allocated id is 0. */
    function GetEntityForAddress(address: string): (r: Option<int>)
      reads this
      ensures r.Some? ==> ToLower(address) in addressToEntity && r.value == addressToEntity[ToLower(address)]
      ensures Valid() ==> (r.Some? <==> ToLower(address) in addressToEntity)
      ensures Valid() && r.Some? ==> r.value == PlayerEntity || (IsRemoteId(r.value) && r.value in allocatedEntities)
    {
      var a := ToLower(address);
      if a in addressToEntity && addressToEntity[a] != 0 then Some(addressToEntity[a]) else None
    }

    /** `getEntityInfo`: the id's two halves and whether it is live. */
    function GetEntityInfo(entityId: int): (r: (int, int, bool))
      reads this
      ensures IsU16(r.0) && IsU16(r.1)
      ensures IsU32(entityId) ==> ToEntityId(r.0, r.1) == entityId
      ensures r.2 <==> entityId in allocatedEntities
    {
      var (number, version) := FromEntityId(entityId);
      (number, version, entityId in allocatedEntities)
    }

    /** `clear`: back to the initial state. */
    method Clear()
      requires Valid()
      modifies this
      ensures Valid()
      ensures allocatedEntities == {} && addressToEntity == map[] && entityToAddress == map[]
      ensures entityVersions == map[] && nextEntityNumber == OtherPlayerEntitiesFrom
    {
      allocatedEntities := {};
      addressToEntity := map[];
      entityToAddress := map[];
      entityVersions := map[];
      nextEntityNumber := OtherPlayerEntitiesFrom;
    }

    /** The live-set test in the reuse loop never fails: slot `n` is
        reusable exactly when its version is below the 16-bit ceiling. So a
        slot is reused while its current version is still live. */
    lemma ReusableIffBelowCeiling(n: int)
      requires Valid()
      requires OtherPlayerEntitiesFrom <= n < nextEntityNumber
      ensures Reusable(n) <==> entityVersions[n] < MaxU16
    {
      if entityVersions[n] < MaxU16 {
        RoundTrip(n, entityVersions[n] + 1);
      }
    }

    /** Consequently the reuse loop always picks the lowest slot whose
        version has not reached 0xFFFF: slot 32 keeps being reused, and a fresh
        slot is only taken once every earlier slot has reached the ceiling. */
    lemma {:induction false} FirstReusableIsLowestBelowCeiling(n: int)
      requires Valid()
      requires OtherPlayerEntitiesFrom <= n < nextEntityNumber
      requires n in entityVersions && entityVersions[n] < MaxU16
      requires forall m :: OtherPlayerEntitiesFrom <= m < n ==> entityVersions[m] == MaxU16
      ensures FirstReusable() == Some(n)
    {
      ReusableIffBelowCeiling(n);
      forall m | OtherPlayerEntitiesFrom <= m < n
        ensures !Reusable(m)
      {
        ReusableIffBelowCeiling(m);
      }
    }

    /** The entity-to-address lookup inverts the address-to-entity lookup. */
    lemma LookupRoundTrip(entityId: int)
      requires Valid()
      requires GetAddressForEntity(entityId).Some?
      ensures GetEntityForAddress(GetAddressForEntity(entityId).value) == Some(entityId)
    {
      var a := entityToAddress[entityId];
      ToLowerOfLower(a);
      if entityId != PlayerEntity {
        assert addressToEntity[a] in allocatedEntities;
      }
    }

    /** A remote id found for an address maps back to that address. */
    lemma ReverseLookupRoundTrip(address: string)
      requires Valid()
      requires GetEntityForAddress(address).Some?
      requires GetEntityForAddress(address).value != PlayerEntity
      requires ToLower(address) != ""
      ensures GetAddressForEntity(GetEntityForAddress(address).value) == Some(ToLower(address))
    {
    }
  }

  /** Two remote peers in a row share slot 32: the second gets version 1 while
      version 0 is still live. */
  method TwoPeersShareFirstSlot() returns (m: PlayerEntityManager, first: Option<int>, second: Option<int>)
    ensures first == Some(ToEntityId(32, 0)) && second == Some(ToEntityId(32, 1))
    ensures m.Valid() && m.allocatedEntities == {ToEntityId(32, 0), ToEntityId(32, 1)}
    ensures m.nextEntityNumber == 33 && m.entityVersions == map[32 := 1]
  {
    m := new PlayerEntityManager();
    assert m.FirstReusable() == None;
    first := m.Allocate("0xAAA", false);
    assert m.entityVersions == map[32 := 0] && m.nextEntityNumber == 33;
    ghost var lowerB := ToLower("0xBBB");
    assert lowerB[2] == 'b';
    assert ToLower("0xAAA")[2] == 'a';
    assert lowerB !in m.addressToEntity;
    m.ReusableIffBelowCeiling(32);
    assert m.FirstReusable() == Some(32);
    second := m.Allocate("0xBBB", false);
  }
}
