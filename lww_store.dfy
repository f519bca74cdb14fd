/** An abstract view of one last-write-wins component store: the live value
    of each entity, the tombstones of deleted entities, and a write counter
    whose value stamps every change so that independent subscribers can pull
    the entities changed after their own watermark. The merge rule and the
    byte encoding of the real store are not part of this model. */
module LwwStore {

  datatype Store<V> = Store(live: map<int, V>, tombstones: set<int>, clock: nat, changedAt: map<int, nat>)
  {
    /** Every stamp was issued by the counter; a live entity has no tombstone. */
    ghost predicate Wf() {
      && (forall e :: e in changedAt ==> changedAt[e] <= clock)
      && live.Keys !! tombstones
      && live.Keys + tombstones <= changedAt.Keys
    }

    /** The entities changed after watermark `since`. */
    function ChangedSince(since: int): (r: set<int>)
      ensures forall e :: e in r <==> e in changedAt && changedAt[e] > since
    {
      set e | e in changedAt && changedAt[e] > since
    }

    /** `createOrReplace`: the entity's live value becomes `value` under a
        fresh stamp. */
    function CreateOrReplace(entity: int, value: V): (r: Store<V>)
      ensures Wf() ==> r.Wf()
      ensures r.live == live[entity := value]
      ensures entity !in r.tombstones && forall e :: e != entity ==> (e in r.tombstones <==> e in tombstones)
      ensures r.clock > clock
      ensures r.ChangedSince(clock) == ChangedSince(clock) + {entity}
    {
      Store(live[entity := value], tombstones - {entity}, clock + 1, changedAt[entity := clock + 1])
    }

    /** `entityDeleted(entity, removeCompletely)`: the entity's value goes
        under a fresh stamp; with `removeCompletely` no tombstone is kept. */
    function EntityDeleted(entity: int, removeCompletely: bool): (r: Store<V>)
      ensures Wf() ==> r.Wf()
      ensures r.live == live - {entity}
      ensures (entity in r.tombstones) == !removeCompletely
      ensures forall e :: e != entity ==> (e in r.tombstones <==> e in tombstones)
      ensures r.clock > clock
      ensures r.ChangedSince(clock) == ChangedSince(clock) + {entity}
    {
      var t := if removeCompletely then tombstones - {entity} else tombstones + {entity};
      Store(live - {entity}, t, clock + 1, changedAt[entity := clock + 1])
    }

    /** `dumpCrdtDeltas(writer, since)`: the entities changed after
        `since` (what would be written out) and the new watermark. */
    function DumpDeltas(since: int): (r: (set<int>, int))
      ensures r.0 <= changedAt.Keys
      ensures forall e :: e in r.0 ==> changedAt[e] > since
      ensures Wf() ==> forall e :: e in r.0 ==> changedAt[e] <= r.1
    {
      (ChangedSince(since), clock)
    }
  }

  function EmptyStore<V>(): (s: Store<V>)
    ensures s.Wf() && s.live == map[] && s.tombstones == {}
  {
    Store(map[], {}, 0, map[])
  }

  /** Pulling again from the returned watermark with no write in between
      yields nothing: the watermark only moves past observed changes. */
  lemma DumpAgainIsEmpty<V>(s: Store<V>, since: int)
    requires s.Wf()
    ensures s.DumpDeltas(s.DumpDeltas(since).1).0 == {}
  {
  }

  /** A write after a pull is seen, alone, by the next pull from that
      watermark. */
  lemma {:induction false} WriteIsSeenOnce<V>(s: Store<V>, since: int, entity: int, value: V)
    requires s.Wf()
    ensures var m := s.DumpDeltas(since).1;
            var t := s.CreateOrReplace(entity, value);
            t.DumpDeltas(m).0 == {entity} && t.DumpDeltas(t.DumpDeltas(m).1).0 == {}
  {
    var m := s.DumpDeltas(since).1;
    DumpAgainIsEmpty(s, since);
    var t := s.CreateOrReplace(entity, value);
    assert t.ChangedSince(m) == {entity};
    DumpAgainIsEmpty(t, m);
  }

  /** Two subscribers pulling at different rates do not disturb each other:
      the store is unchanged by a pull, so each sees every change after its
      own watermark. */
  lemma IndependentWatermarks<V>(s: Store<V>, w1: int, w2: int)
    requires w1 <= w2
    ensures s.DumpDeltas(w2).0 <= s.DumpDeltas(w1).0
  {
  }
}
