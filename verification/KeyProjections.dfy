/**
 A second projection of the same messages: one versioned row per key, for token verification. Although it is
 versioned per key and the client read model per client, both hold the same kids after any common prefix of
 a client's messages, and after any schedules that bring both consumers to the end of the log.
 */
module KeyProjections {
  import opened Basics
  import opened ClientReadModel
  import opened ClientStream

  /** The columns that are computed from the key stand for themselves in `data`. */
  datatype JwkRow = JwkRow(version: nat, data: KeyData)

  type JwkTable = map<PartKey, JwkRow>

  // ---- the writer ----

  function Upserted(row: Option<JwkRow>, data: KeyData, version: nat): Option<JwkRow> {
    if row.Some? && row.value.version > version then row else Some(JwkRow(version, data))
  }

  function Deleted(row: Option<JwkRow>, version: nat): Option<JwkRow> {
    if row.Some? && row.value.version <= version then None else row
  }

  class JwkReadModel {
    var rows: JwkTable

    constructor ()
      ensures rows == map[]
    {
      rows := map[];
    }

    method UpsertClientJWKKey(c: Id, key: Key, version: nat)
      modifies this
      ensures forall k: PartKey :: Lookup(rows, k) ==
                if k == PartKey(c, key.kid) && !(k in old(rows) && old(rows)[k].version > version)
                then Some(JwkRow(version, key.data)) else Lookup(old(rows), k)
    {
      var k := PartKey(c, key.kid);
      if k in rows && rows[k].version > version { return; }
      rows := rows - {k};
      rows := rows[k := JwkRow(version, key.data)];
    }

    method DeleteByClientIdAndKid(c: Id, kid: Id, version: nat)
      modifies this
      ensures forall k: PartKey :: Lookup(rows, k) ==
                if k == PartKey(c, kid) && k in old(rows) && old(rows)[k].version <= version then None
                else Lookup(old(rows), k)
    {
      rows := map k | k in rows && !(k == PartKey(c, kid) && rows[k].version <= version) :: rows[k];
    }

    method DeleteByClientId(c: Id, version: nat)
      modifies this
      ensures forall k: PartKey :: Lookup(rows, k) ==
                if k.clientId == c && k in old(rows) && old(rows)[k].version <= version then None
                else Lookup(old(rows), k)
    {
      rows := map k | k in rows && !(k.clientId == c && rows[k].version <= version) :: rows[k];
    }
  }

  // ---- what a message does to one key ----

  function FindKid(keys: seq<Key>, kid: Id): Option<Key> {
    if keys == [] then None else if keys[0].kid == kid then Some(keys[0]) else FindKid(keys[1..], kid)
  }

  /** Upserts in order; only those of the kid concern its row. */
  function UpsertEach(row: Option<JwkRow>, kid: Id, keys: seq<Key>, version: nat): Option<JwkRow>
    decreases |keys|
  {
    if keys == [] then row
    else UpsertEach(if keys[0].kid == kid then Upserted(row, keys[0].data, version) else row, kid, keys[1..], version)
  }

  /** `keyToClientJWKKey` finds the claims that it requires. */
  predicate Convertible(m: Message) {
    match m
    case V1(event, _) => event.KeysAdded? ==> forall k <- Storable(event.keys) :: k.data.keyType == RSA
    case V2(event, _) =>
      event.ClientKeyAddedV2? ==>
        var key := FindKid(event.client.keys, event.kid); key.Some? && key.value.data.keyType == RSA
  }

  function JwkStep(k: PartKey, row: Option<JwkRow>, m: Message): Option<JwkRow>
    requires Convertible(m)
  {
    if m.Called().clientId != k.clientId then row
    else
      match m
      case V1(event, v) =>
        (match event
         case KeysAdded(_, keys) => UpsertEach(row, k.id, Storable(keys), v)
         case KeyDeleted(_, kid) => if kid == k.id then Deleted(row, v) else row
         case ClientDeleted(_) => Deleted(row, v)
         case _ => row)
      case V2(event, v) =>
        (match event
         case ClientKeyAddedV2(client, kid) =>
           if kid == k.id then Upserted(row, FindKid(client.keys, kid).value.data, v) else row
         case ClientKeyDeletedV2(_, kid) => if kid == k.id then Deleted(row, v) else row
         case ClientDeletedV2(_) => Deleted(row, v)
         case ClientChangedV2(_) => row)
  }

  // ---- the consumer ----

  lemma {:induction false} FoundKid(keys: seq<Key>, kid: Id)
    ensures FindKid(keys, kid).Some? ==> FindKid(keys, kid).value.kid == kid
    ensures FindKid(keys, kid).Some? <==> HasKid(keys, kid)
  {
    if keys != [] {
      FoundKid(keys[1..], kid);
      if HasKid(keys[1..], kid) {
        var i :| 0 <= i < |keys| - 1 && keys[1..][i].kid == kid;
        assert keys[i + 1].kid == kid;
      }
      if HasKid(keys, kid) && keys[0].kid != kid {
        var i :| 0 <= i < |keys| && keys[i].kid == kid;
        assert keys[1..][i - 1].kid == kid;
      }
    }
  }

  /** V1 KeysAdded: one transaction per key, so that a key that cannot be converted leaves the earlier ones. */
  method AddEach(rm: JwkReadModel, c: Id, keys: seq<Key>, version: nat) returns (o: Transaction)
    modifies rm
    ensures o.Committed? <==> forall k <- keys :: k.data.keyType == RSA
    ensures o.Committed? ==>
              forall k: PartKey :: Lookup(rm.rows, k) ==
                if k.clientId == c then UpsertEach(Lookup(old(rm.rows), k), k.id, keys, version)
                else Lookup(old(rm.rows), k)
  {
    ghost var before := rm.rows;
    assert keys[0..] == keys;
    for i := 0 to |keys|
      invariant forall k <- keys[..i] :: k.data.keyType == RSA
      invariant forall k: PartKey | k.clientId != c :: Lookup(rm.rows, k) == Lookup(before, k)
      invariant forall k: PartKey | k.clientId == c ::
                  UpsertEach(Lookup(rm.rows, k), k.id, keys[i..], version)
                    == UpsertEach(Lookup(before, k), k.id, keys, version)
    {
      if keys[i].data.keyType != RSA { return Aborted; }
      ghost var mid := rm.rows;
      rm.UpsertClientJWKKey(c, keys[i], version);
      assert keys[i..][1..] == keys[i + 1..];
      forall k: PartKey | k.clientId == c ensures
          UpsertEach(Lookup(rm.rows, k), k.id, keys[i + 1..], version)
            == UpsertEach(Lookup(before, k), k.id, keys, version)
      {
        assert Lookup(rm.rows, k) ==
            if k.id == keys[i].kid then Upserted(Lookup(mid, k), keys[i].data, version) else Lookup(mid, k);
        assert UpsertEach(Lookup(mid, k), k.id, keys[i..], version)
                 == UpsertEach(Lookup(rm.rows, k), k.id, keys[i + 1..], version);
      }
    }
    return Committed;
  }

  method HandleMessage(rm: JwkReadModel, m: Message) returns (o: Transaction)
    modifies rm
    ensures o.Committed? <==> Convertible(m)
    ensures o.Committed? ==> forall k: PartKey :: Lookup(rm.rows, k) == JwkStep(k, Lookup(old(rm.rows), k), m)
  {
    o := Committed;
    match m
    case V1(event, v) =>
      match event {
       case KeysAdded(c, keys) => o := AddEach(rm, c, Storable(keys), v);
       case KeyDeleted(c, kid) => rm.DeleteByClientIdAndKid(c, kid, v);
       case ClientDeleted(c) => rm.DeleteByClientId(c, v);
       case _ =>
      }
    case V2(event, v) =>
      match event {
       case ClientKeyAddedV2(client, kid) =>
         var key := FindKid(client.keys, kid);
         FoundKid(client.keys, kid);
         if key.None? || key.value.data.keyType != RSA { return Aborted; }
         rm.UpsertClientJWKKey(client.id, key.value, v);
       case ClientKeyDeletedV2(client, kid) => rm.DeleteByClientIdAndKid(client.id, kid, v);
       case ClientDeletedV2(c) => rm.DeleteByClientId(c, v);
       case ClientChangedV2(_) =>
      }
  }
}
