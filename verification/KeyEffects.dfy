/** What each authorization message does to one row of the key projection, told from the message. */
module KeyEffects {
  import opened Basics
  import opened ClientReadModel
  import opened ClientStream
  import opened ClientEffects
  import opened KeyProjections

  predicate IsNewerRow(row: Option<JwkRow>, version: nat) {
    row.Some? && row.value.version > version
  }

  /** A row that is not newer is replaced. */
  predicate Stores(before: Option<JwkRow>, now: Option<JwkRow>, data: KeyData, version: nat) {
    if IsNewerRow(before, version) then now == before else now == Some(JwkRow(version, data))
  }

  predicate Removes(before: Option<JwkRow>, now: Option<JwkRow>, version: nat) {
    if IsNewerRow(before, version) then now == before else now.None?
  }

  predicate IsLast(keys: seq<Option<KeyV1>>, kid: Id, i: nat) {
    i < |keys| && IsStorableAs(keys[i], kid) && forall j: nat | i < j < |keys| :: !IsStorableAs(keys[j], kid)
  }

  /** The last key of a batch that comes with the kid and is not elliptic. */
  ghost predicate StoresBatch(before: Option<JwkRow>, now: Option<JwkRow>, keys: seq<Option<KeyV1>>, kid: Id,
                              version: nat) {
    if IsNewerRow(before, version) || forall i: nat :: !IsLast(keys, kid, i) then now == before
    else
      && now.Some? && now.value.version == version
      && exists i: nat :: IsLast(keys, kid, i) && StoresKey(now.value.data, keys[i].value)
  }

  predicate IsFirstKey(keys: seq<Key>, kid: Id, i: nat) {
    i < |keys| && keys[i].kid == kid && forall j: nat | j < i :: keys[j].kid != kid
  }

  ghost predicate Effect(k: PartKey, before: Option<JwkRow>, now: Option<JwkRow>, m: Message) {
    match m
    case V1(KeysAdded(c, keys), version) =>
      if c == k.clientId then StoresBatch(before, now, keys, k.id, version) else now == before
    case V1(KeyDeleted(c, kid), version) =>
      if PartKey(c, kid) == k then Removes(before, now, version) else now == before
    case V1(ClientDeleted(c), version) => if c == k.clientId then Removes(before, now, version) else now == before
    case V1(_, _) => now == before
    case V2(ClientKeyAddedV2(client, kid), version) =>
      if PartKey(client.id, kid) == k
      then exists i: nat :: IsFirstKey(client.keys, kid, i) && Stores(before, now, client.keys[i].data, version)
      else now == before
    case V2(ClientKeyDeletedV2(client, kid), version) =>
      if PartKey(client.id, kid) == k then Removes(before, now, version) else now == before
    case V2(ClientDeletedV2(c), version) => if c == k.clientId then Removes(before, now, version) else now == before
    case V2(ClientChangedV2(_), _) => now == before
  }

  /** The messages that do not throw. */
  ghost predicate IsConvertible(m: Message) {
    match m
    case V1(KeysAdded(_, keys), _) => forall k <- keys :: IsStorable(k) ==> k.value.data.keyType == RSA
    case V2(ClientKeyAddedV2(client, kid), _) =>
      exists i: nat :: IsFirstKey(client.keys, kid, i) && client.keys[i].data.keyType == RSA
    case _ => true
  }

  lemma {:induction false} AllStorableRsa(keys: seq<Option<KeyV1>>)
    ensures (forall k <- Storable(keys) :: k.data.keyType == RSA) <==>
            forall k <- keys :: IsStorable(k) ==> k.value.data.keyType == RSA
  {
    if keys != [] {
      AllStorableRsa(keys[1..]);
      var s, t := Storable(keys), Storable(keys[1..]);
      assert forall k :: k in keys <==> k == keys[0] || k in keys[1..];
      assert forall k <- t :: k in s;
      assert forall k <- s :: k in t || (IsStorable(keys[0]) && k == s[0]);
      if IsStorable(keys[0]) { assert s[0] in s && s[0].data.keyType == keys[0].value.data.keyType; }
    }
  }

  lemma {:induction false} FoundIsFirst(keys: seq<Key>, kid: Id)
    ensures FindKid(keys, kid).Some? <==> exists i: nat :: IsFirstKey(keys, kid, i)
    ensures forall i: nat :: IsFirstKey(keys, kid, i) ==> FindKid(keys, kid) == Some(keys[i])
  {
    if keys != [] {
      if keys[0].kid == kid {
        assert IsFirstKey(keys, kid, 0);
      } else {
        FoundIsFirst(keys[1..], kid);
        forall i: nat ensures IsFirstKey(keys, kid, i + 1) <==> IsFirstKey(keys[1..], kid, i) {
          FirstKeyOfRest(keys, kid, i);
        }
        if i: nat :| IsFirstKey(keys[1..], kid, i) { assert IsFirstKey(keys, kid, i + 1); }
        forall i: nat | IsFirstKey(keys, kid, i) ensures FindKid(keys, kid) == Some(keys[i]) {
          assert IsFirstKey(keys[1..], kid, i - 1);
        }
      }
    }
  }

  lemma FirstKeyOfRest(keys: seq<Key>, kid: Id, i: nat)
    requires keys != [] && keys[0].kid != kid
    ensures IsFirstKey(keys, kid, i + 1) <==> IsFirstKey(keys[1..], kid, i)
  {
    if IsFirstKey(keys[1..], kid, i) { assert forall j: nat | 0 < j < i + 1 :: keys[j] == keys[1..][j - 1]; }
    if IsFirstKey(keys, kid, i + 1) { assert forall j: nat | j < i :: keys[1..][j] == keys[j + 1]; }
  }

  lemma LastOfRest(keys: seq<Option<KeyV1>>, kid: Id, i: nat)
    requires keys != []
    ensures IsLast(keys, kid, i + 1) <==> IsLast(keys[1..], kid, i)
  {
    if IsLast(keys[1..], kid, i) {
      assert forall j: nat | i + 1 < j < |keys| :: keys[j] == keys[1..][j - 1];
    }
    if IsLast(keys, kid, i + 1) {
      assert forall j: nat | i < j < |keys| - 1 :: keys[1..][j] == keys[j + 1];
    }
  }

  /** Whether the first key counts is decided by the others. */
  lemma LastIsFirst(keys: seq<Option<KeyV1>>, kid: Id)
    requires keys != []
    ensures IsLast(keys, kid, 0) <==> IsStorableAs(keys[0], kid) && forall i: nat :: !IsLast(keys[1..], kid, i)
  {
    if i: nat :| IsLast(keys[1..], kid, i) {
      LastOfRest(keys, kid, i);
    } else {
      NoLast(keys[1..], kid);
      assert forall j: nat | 0 < j < |keys| :: keys[j] == keys[1..][j - 1];
    }
  }

  lemma {:induction false} NoLast(keys: seq<Option<KeyV1>>, kid: Id)
    requires forall i: nat :: !IsLast(keys, kid, i)
    ensures forall j | 0 <= j < |keys| :: !IsStorableAs(keys[j], kid)
  {
    if keys != [] {
      forall i: nat ensures !IsLast(keys[1..], kid, i) { LastOfRest(keys, kid, i); }
      NoLast(keys[1..], kid);
      assert forall j | 0 < j < |keys| :: keys[j] == keys[1..][j - 1];
      assert !IsLast(keys, kid, 0);
    }
  }

  lemma {:induction false} BatchStored(row: Option<JwkRow>, kid: Id, keys: seq<Option<KeyV1>>, version: nat)
    ensures StoresBatch(row, UpsertEach(row, kid, Storable(keys), version), keys, kid, version)
    decreases |keys|
  {
    if keys != [] {
      var more := Storable(keys);
      var hit := IsStorableAs(keys[0], kid);
      assert IsStorable(keys[0]) ==> more[1..] == Storable(keys[1..]);
      var row' := if hit then Upserted(row, more[0].data, version) else row;
      assert UpsertEach(row, kid, more, version) == UpsertEach(row', kid, Storable(keys[1..]), version);
      BatchStored(row', kid, keys[1..], version);
      BatchWithFirst(row, row', UpsertEach(row, kid, more, version), kid, keys, version);
    }
  }

  lemma BatchWithFirst(row: Option<JwkRow>, row': Option<JwkRow>, now: Option<JwkRow>, kid: Id,
                       keys: seq<Option<KeyV1>>, version: nat)
    requires keys != [] && StoresBatch(row', now, keys[1..], kid, version)
    requires if IsNewerRow(row, version) || !IsStorableAs(keys[0], kid) then row' == row
             else row'.Some? && row'.value.version == version && StoresKey(row'.value.data, keys[0].value)
    ensures StoresBatch(row, now, keys, kid, version)
  {
    LastIsFirst(keys, kid);
    forall i: nat ensures IsLast(keys, kid, i + 1) <==> IsLast(keys[1..], kid, i) { LastOfRest(keys, kid, i); }
    if i: nat :| IsLast(keys[1..], kid, i) {
      assert IsLast(keys, kid, i + 1) && keys[i + 1] == keys[1..][i];
      if !IsNewerRow(row, version) {
        var j: nat :| IsLast(keys[1..], kid, j) && StoresKey(now.value.data, keys[1..][j].value);
        assert IsLast(keys, kid, j + 1) && keys[j + 1] == keys[1..][j];
      }
    } else if i: nat :| IsLast(keys, kid, i) {
      assert i != 0 ==> IsLast(keys[1..], kid, i - 1);
    }
  }

  /** The row-wise step of the key projection does what the message says, and throws when it says. */
  lemma StepHasEffect(k: PartKey, before: Option<JwkRow>, m: Message)
    ensures Convertible(m) <==> IsConvertible(m)
    ensures Convertible(m) ==> Effect(k, before, JwkStep(k, before, m), m)
  {
    match m
    case V1(KeysAdded(_, keys), version) =>
      AllStorableRsa(keys);
      BatchStored(before, k.id, keys, version);
    case V2(ClientKeyAddedV2(client, kid), _) =>
      FoundIsFirst(client.keys, kid);
    case _ =>
  }
}
