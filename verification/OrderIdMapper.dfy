// The two-way map between local and broker order ids.
module IdMapper {
  import opened Base

  datatype IdMap = IdMap(toBroker: map<LocalId, BrokerId>, toLocal: map<BrokerId, LocalId>)

  const EMPTY_MAP := IdMap(map[], map[])

  function Add(m: IdMap, l: LocalId, b: BrokerId): IdMap {
    IdMap(m.toBroker[l := b], m.toLocal[b := l])
  }

  function Remove(m: IdMap, l: LocalId): IdMap {
    if l in m.toBroker then IdMap(m.toBroker - {l}, m.toLocal - {m.toBroker[l]}) else m
  }

  /** Every broker entry leads to a local entry that leads back. */
  ghost predicate Sound(m: IdMap) {
    forall b :: b in m.toLocal ==> m.toLocal[b] in m.toBroker && m.toBroker[m.toLocal[b]] == b
  }

  /** The two maps are inverses of each other. */
  ghost predicate Inverse(m: IdMap) {
    && Sound(m)
    && (forall l :: l in m.toBroker ==> m.toBroker[l] in m.toLocal && m.toLocal[m.toBroker[l]] == l)
  }

  /** Adding keeps the maps inverse exactly when neither id is already tied to another one. */
  lemma AddKeepsInverse(m: IdMap, l: LocalId, b: BrokerId)
    requires Inverse(m)
    ensures Inverse(Add(m, l, b))
       <==> (l in m.toBroker ==> m.toBroker[l] == b) && (b in m.toLocal ==> m.toLocal[b] == l)
  {
    var n := Add(m, l, b);
    if l in m.toBroker && m.toBroker[l] != b {
      var stale := m.toBroker[l];
      assert n.toLocal[stale] == l && n.toBroker[l] != stale;
    }
    if b in m.toLocal && m.toLocal[b] != l {
      var stale := m.toLocal[b];
      assert n.toBroker[stale] == b && n.toLocal[b] != stale;
    }
  }

  lemma AddKeepsSound(m: IdMap, l: LocalId, b: BrokerId)
    requires Sound(m)
    ensures l !in m.toBroker ==> Sound(Add(m, l, b))
  {
  }

  lemma RemoveKeepsInverse(m: IdMap, l: LocalId)
    ensures Sound(m) ==> Sound(Remove(m, l))
    ensures Inverse(m) ==> Inverse(Remove(m, l))
    ensures l !in Remove(m, l).toBroker
    ensures Sound(m) ==> forall b :: b in Remove(m, l).toLocal ==> Remove(m, l).toLocal[b] != l
  {
  }

  /** Registering fresh ids and dropping them again restores the mapper. */
  lemma RemoveUndoesAdd(m: IdMap, l: LocalId, b: BrokerId)
    requires l !in m.toBroker && b !in m.toLocal
    ensures Remove(Add(m, l, b), l) == m
  {
    assert Add(m, l, b).toBroker - {l} == m.toBroker;
    assert Add(m, l, b).toLocal - {b} == m.toLocal;
  }

  class OrderIdMapper {
    var localToBroker: map<LocalId, BrokerId>
    var brokerToLocal: map<BrokerId, LocalId>

    ghost function View(): IdMap
      reads this
    {
      IdMap(localToBroker, brokerToLocal)
    }

    constructor ()
      ensures View() == EMPTY_MAP
    {
      localToBroker, brokerToLocal := map[], map[];
    }

    method AddMapping(l: LocalId, b: BrokerId)
      modifies this
      ensures View() == Add(old(View()), l, b)
    {
      localToBroker := localToBroker[l := b];
      brokerToLocal := brokerToLocal[b := l];
    }

    method GetBrokerId(l: LocalId) returns (b: Option<BrokerId>)
      ensures b == if l in View().toBroker then Some(View().toBroker[l]) else None
    {
      b := if l in localToBroker then Some(localToBroker[l]) else None;
    }

    method GetLocalId(b: BrokerId) returns (l: Option<LocalId>)
      ensures l == if b in View().toLocal then Some(View().toLocal[b]) else None
    {
      l := if b in brokerToLocal then Some(brokerToLocal[b]) else None;
    }

    method RemoveMapping(l: LocalId)
      modifies this
      ensures View() == Remove(old(View()), l)
    {
      if l in localToBroker {
        brokerToLocal := brokerToLocal - {localToBroker[l]};
        localToBroker := localToBroker - {l};
      }
    }
  }
}
