/**
 What each authorization message leaves in the SQL tables of clients, told from the message and the tables row by
 row. All rows of a client carry the version of its row, as the tables are uniform.
 */
module ClientEffects {
  import opened Basics
  import opened ClientReadModel
  import opened ClientStream

  // ---- rows ----

  predicate IsBlank(s: Option<string>) {
    s.None? || s.value == ""
  }

  /** The columns of the client row: a blank administrator or description is stored as null. */
  predicate StoresProfile(row: Profile, p: Profile) {
    && row.consumerId == p.consumerId && row.name == p.name && row.kind == p.kind && row.createdAt == p.createdAt
    && (if IsBlank(p.adminId) then row.adminId.None? else row.adminId == p.adminId)
    && (if IsBlank(p.description) then row.description.None? else row.description == p.description)
  }

  /** The tables hold the client's snapshot and nothing else of it. */
  ghost predicate HoldsSnapshot(db: Tables, client: Client, version: nat) {
    var c := client.id;
    && c in db.clients && db.clients[c].version == version && StoresProfile(db.clients[c].profile, client.profile)
    && (forall id: Id :: PartKey(c, id) in db.users <==> id in client.users)
    && (forall id: Id :: PartKey(c, id) in db.purposes <==> id in client.purposes)
    && forall kid: Id, data: KeyData ::
         PartKey(c, kid) in db.keys && db.keys[PartKey(c, kid)].data == data <==> Key(kid, data) in client.keys
  }

  ghost predicate IsGone(db: Tables, c: Id) {
    && c !in db.clients
    && forall id: Id :: PartKey(c, id) !in db.users && PartKey(c, id) !in db.purposes && PartKey(c, id) !in db.keys
  }

  ghost predicate OthersStay(before: Tables, now: Tables, c: Id) {
    && (forall d: Id | d != c :: Lookup(now.clients, d) == Lookup(before.clients, d))
    && forall k: PartKey | k.clientId != c ::
         && Lookup(now.users, k) == Lookup(before.users, k) && Lookup(now.purposes, k) == Lookup(before.purposes, k)
         && Lookup(now.keys, k) == Lookup(before.keys, k)
  }

  /** The client row has the message's version and is otherwise as before. */
  predicate Restamped(before: Tables, now: Tables, c: Id, version: nat) {
    && c in before.clients && c in now.clients
    && now.clients[c].version == version && now.clients[c].profile == before.clients[c].profile
  }

  ghost predicate UsersStay(before: Tables, now: Tables, c: Id) {
    forall id: Id :: PartKey(c, id) in now.users <==> PartKey(c, id) in before.users
  }

  ghost predicate PurposesStay(before: Tables, now: Tables, c: Id) {
    forall id: Id :: PartKey(c, id) in now.purposes <==> PartKey(c, id) in before.purposes
  }

  function DataOf(db: Tables, c: Id, kid: Id): Option<KeyData> {
    if PartKey(c, kid) in db.keys then Some(db.keys[PartKey(c, kid)].data) else None
  }

  ghost predicate KeysStay(before: Tables, now: Tables, c: Id) {
    forall kid: Id :: DataOf(now, c, kid) == DataOf(before, c, kid)
  }

  // ---- keys of V1 messages ----

  predicate IsStorable(key: Option<KeyV1>) {
    key.Some? && key.value.data.keyType != EC
  }

  predicate IsStorableAs(key: Option<KeyV1>, kid: Id) {
    IsStorable(key) && key.value.kid == kid
  }

  predicate IsFirst(keys: seq<Option<KeyV1>>, kid: Id, i: nat) {
    i < |keys| && IsStorableAs(keys[i], kid) && forall j: nat | j < i :: !IsStorableAs(keys[j], kid)
  }

  /** The columns of a key of a V1 message: a blank user is stored as null. */
  predicate StoresKey(data: KeyData, key: KeyV1) {
    && data.userId == (if key.userId == "" then None else Some(key.userId))
    && data.name == key.data.name && data.encodedPem == key.data.encodedPem && data.keyType == key.data.keyType
    && data.algorithm == key.data.algorithm && data.usage == key.data.usage && data.createdAt == key.data.createdAt
  }

  /** A key that is stored stays; a new kid gets the first key that comes with it and is not elliptic. */
  ghost predicate AddsKeyAt(before: Option<KeyData>, now: Option<KeyData>, keys: seq<Option<KeyV1>>, kid: Id) {
    if before.Some? then now == before
    else if exists i: nat :: IsFirst(keys, kid, i)
    then now.Some? && exists i: nat :: IsFirst(keys, kid, i) && StoresKey(now.value, keys[i].value)
    else now.None?
  }

  ghost predicate AddsKeys(before: Tables, now: Tables, c: Id, keys: seq<Option<KeyV1>>) {
    forall kid: Id :: AddsKeyAt(DataOf(before, c, kid), DataOf(now, c, kid), keys, kid)
  }

  // ---- messages ----

  function ClientIdOf(event: EventV1): Id {
    if event.ClientAdded? then event.client.id else event.clientId
  }

  predicate IsNewer(db: Tables, c: Id, version: nat) {
    c in db.clients && db.clients[c].version > version
  }

  /** A V1 message about a stored client that is not newer, and that may have to add something. */
  ghost predicate Moves(before: Tables, now: Tables, event: EventV1, version: nat) {
    var c := ClientIdOf(event);
    match event
    case UserAdded(_, u) =>
      && Restamped(before, now, c, version) && PurposesStay(before, now, c) && KeysStay(before, now, c)
      && forall id: Id :: PartKey(c, id) in now.users <==> PartKey(c, id) in before.users || id == u
    case UserRemoved(_, u) =>
      && Restamped(before, now, c, version) && PurposesStay(before, now, c) && KeysStay(before, now, c)
      && forall id: Id :: PartKey(c, id) in now.users <==> PartKey(c, id) in before.users && id != u
    case ClientPurposeAdded(_, p) =>
      && Restamped(before, now, c, version) && UsersStay(before, now, c) && KeysStay(before, now, c)
      && forall id: Id :: PartKey(c, id) in now.purposes <==> PartKey(c, id) in before.purposes || id == p
    case ClientPurposeRemoved(_, p) =>
      && Restamped(before, now, c, version) && UsersStay(before, now, c) && KeysStay(before, now, c)
      && forall id: Id :: PartKey(c, id) in now.purposes <==> PartKey(c, id) in before.purposes && id != p
    case KeysAdded(_, keys) =>
      && Restamped(before, now, c, version) && UsersStay(before, now, c) && PurposesStay(before, now, c)
      && AddsKeys(before, now, c, keys)
    case KeyDeleted(_, gone) =>
      && Restamped(before, now, c, version) && UsersStay(before, now, c) && PurposesStay(before, now, c)
      && forall kid: Id :: DataOf(now, c, kid) == if kid == gone then None else DataOf(before, c, kid)
    case KeyRelationshipToUserMigrated(_, moved, u) =>
      && Restamped(before, now, c, version) && UsersStay(before, now, c) && PurposesStay(before, now, c)
      && forall kid: Id :: DataOf(now, c, kid) ==
           if kid == moved && DataOf(before, c, kid).Some?
           then Some(DataOf(before, c, kid).value.(userId := Some(u))) else DataOf(before, c, kid)
    case ClientAdded(client) => HoldsSnapshot(now, client, version)
    case ClientDeleted(_) => IsGone(now, c)
  }

  predicate NeedsClient(event: EventV1) {
    event.UserAdded? || event.ClientPurposeAdded? || event.KeysAdded?
  }

  predicate IsEmptyBatch(event: EventV1) {
    event.KeysAdded? && forall k <- event.keys :: !IsStorable(k)
  }

  predicate Repeats(client: Client) {
    !Distinct(client.purposes) || !DistinctKids(client.keys)
  }

  ghost predicate EffectV1(before: Tables, now: Tables, event: EventV1, version: nat, o: Transaction) {
    var c := ClientIdOf(event);
    if IsNewer(before, c, version) || IsEmptyBatch(event) then o.Committed? && now == before
    else if event.ClientAdded? && Repeats(event.client) then o.Aborted? && now == before
    else if c !in before.clients && !event.ClientAdded?
    then (o.Aborted? <==> NeedsClient(event)) && now == before
    else o.Committed? && Moves(before, now, event, version) && OthersStay(before, now, c)
  }

  ghost predicate EffectV2(before: Tables, now: Tables, event: EventV2, version: nat, o: Transaction) {
    var c := if event.ClientDeletedV2? then event.clientId else event.client.id;
    if IsNewer(before, c, version) then o.Committed? && now == before
    else if !event.ClientDeletedV2? && Repeats(event.client) then o.Aborted? && now == before
    else
      && o.Committed? && OthersStay(before, now, c)
      && if event.ClientDeletedV2? then IsGone(now, c) else HoldsSnapshot(now, event.client, version)
  }

  // ---- proofs ----

  lemma PartsInView<V>(rows: map<PartKey, V>, c: Id)
    ensures forall id: Id :: id in PartIds(rows, c) <==> PartKey(c, id) in rows
  {
  }

  lemma DataInView(db: Tables, c: Id, kid: Id)
    ensures DataOf(db, c, kid) == Lookup(KeysOf(db.keys, c), kid)
  {
    KeyInView(db.keys, PartKey(c, kid));
  }

  lemma OthersStayed(before: Tables, now: Tables, c: Id)
    requires Uniform(before) && Uniform(now) && OthersSame(before, now, c)
    ensures OthersStay(before, now, c)
  {
    forall d: Id | d != c ensures Lookup(now.clients, d) == Lookup(before.clients, d) {
      assert View(now, d) == View(before, d);
    }
    forall k: PartKey | k.clientId != c
      ensures Lookup(now.users, k) == Lookup(before.users, k)
      ensures Lookup(now.purposes, k) == Lookup(before.purposes, k)
      ensures Lookup(now.keys, k) == Lookup(before.keys, k)
    {
      RowStayed(before, now, k);
    }
  }

  lemma NoClientNoParts(db: Tables, k: PartKey)
    requires Uniform(db) && k.clientId !in db.clients
    ensures k !in db.users && k !in db.purposes && k !in db.keys
  {
  }

  lemma RowStayed(before: Tables, now: Tables, k: PartKey)
    requires Uniform(before) && Uniform(now) && View(now, k.clientId) == View(before, k.clientId)
    ensures Lookup(now.users, k) == Lookup(before.users, k)
    ensures Lookup(now.purposes, k) == Lookup(before.purposes, k)
    ensures Lookup(now.keys, k) == Lookup(before.keys, k)
  {
    var c := k.clientId;
    assert PartKey(c, k.id) == k;
    if c in before.clients {
      PartsInView(before.users, c);
      PartsInView(now.users, c);
      PartsInView(before.purposes, c);
      PartsInView(now.purposes, c);
      KeyInView(before.keys, k);
      KeyInView(now.keys, k);
      assert k in before.users <==> k in now.users;
      assert k in before.purposes <==> k in now.purposes;
      assert k in before.keys <==> k in now.keys;
    } else {
      NoClientNoParts(before, k);
      NoClientNoParts(now, k);
    }
  }

  lemma {:induction false} StorableKeys(keys: seq<Option<KeyV1>>)
    ensures Storable(keys) == [] <==> forall k <- keys :: !IsStorable(k)
  {
    if keys != [] {
      StorableKeys(keys[1..]);
      assert keys[0] in keys && forall k <- keys[1..] :: k in keys;
      assert forall k <- keys :: k == keys[0] || k in keys[1..];
    }
  }

  lemma FirstOfRest(keys: seq<Option<KeyV1>>, kid: Id, i: nat)
    requires keys != [] && !IsStorableAs(keys[0], kid)
    ensures IsFirst(keys[1..], kid, i) <==> IsFirst(keys, kid, i + 1)
  {
    if IsFirst(keys[1..], kid, i) {
      assert forall j: nat | 0 < j < i + 1 :: keys[j] == keys[1..][j - 1];
    }
    if IsFirst(keys, kid, i + 1) {
      assert forall j: nat | j < i :: keys[1..][j] == keys[j + 1];
    }
  }

  lemma {:induction false} AddedFromRest(before: Option<KeyData>, now: Option<KeyData>, keys: seq<Option<KeyV1>>,
                                         kid: Id)
    requires keys != [] && !IsStorableAs(keys[0], kid) && AddsKeyAt(before, now, keys[1..], kid)
    ensures AddsKeyAt(before, now, keys, kid)
  {
    forall i: nat ensures IsFirst(keys[1..], kid, i) <==> IsFirst(keys, kid, i + 1) { FirstOfRest(keys, kid, i); }
    if before.None? {
      if i: nat :| IsFirst(keys, kid, i) {
        assert IsFirst(keys[1..], kid, i - 1);
        var j: nat :| IsFirst(keys[1..], kid, j) && StoresKey(now.value, keys[1..][j].value);
        assert IsFirst(keys, kid, j + 1) && keys[j + 1] == keys[1..][j];
      } else {
        assert forall i: nat :: !IsFirst(keys[1..], kid, i);
      }
    }
  }

  lemma {:induction false} KeyMerged(m: map<Id, KeyData>, keys: seq<Option<KeyV1>>, kid: Id)
    ensures AddsKeyAt(Lookup(m, kid), Lookup(Merged(m, Storable(keys)), kid), keys, kid)
    decreases |keys|
  {
    MergedKids(m, Storable(keys));
    if keys != [] && kid !in m {
      if IsStorable(keys[0]) {
        var more := Storable(keys);
        assert more[1..] == Storable(keys[1..]);
        var m' := if more[0].kid in m then m else m[more[0].kid := more[0].data];
        MergedKids(m', more[1..]);
        if more[0].kid == kid {
          assert IsFirst(keys, kid, 0) && StoresKey(m'[kid], keys[0].value);
        } else {
          KeyMerged(m', keys[1..], kid);
          AddedFromRest(None, Lookup(Merged(m, more), kid), keys, kid);
        }
      } else {
        KeyMerged(m, keys[1..], kid);
        AddedFromRest(None, Lookup(Merged(m, Storable(keys)), kid), keys, kid);
      }
    }
  }

  lemma {:induction false} DistinctMerged(m: map<Id, KeyData>, keys: seq<Key>, kid: Id, data: KeyData)
    requires DistinctKids(keys) && forall k <- keys :: k.kid !in m
    ensures Lookup(Merged(m, keys), kid) == Some(data) <==> Lookup(m, kid) == Some(data) || Key(kid, data) in keys
    decreases |keys|
  {
    if keys != [] {
      assert forall i | 0 <= i < |keys| - 1 :: keys[1..][i] == keys[i + 1];
      assert forall k :: k in keys <==> k == keys[0] || k in keys[1..];
      DistinctMerged(m[keys[0].kid := keys[0].data], keys[1..], kid, data);
    }
  }

  lemma SnapshotHeld(now: Tables, client: Client, version: nat)
    requires View(now, client.id) == Some(Snapshot(client, version)) && DistinctKids(client.keys)
    ensures HoldsSnapshot(now, client, version)
  {
    var c := client.id;
    PartsInView(now.users, c);
    PartsInView(now.purposes, c);
    forall kid: Id, data: KeyData
      ensures PartKey(c, kid) in now.keys && now.keys[PartKey(c, kid)].data == data <==> Key(kid, data) in client.keys
    {
      KeyInView(now.keys, PartKey(c, kid));
      DistinctMerged(map[], client.keys, kid, data);
    }
  }

  lemma GoneHeld(now: Tables, c: Id)
    requires Uniform(now) && View(now, c) == None
    ensures IsGone(now, c)
  {
    forall id: Id ensures PartKey(c, id) !in now.users && PartKey(c, id) !in now.purposes && PartKey(c, id) !in now.keys
    {
      NoClientNoParts(now, PartKey(c, id));
    }
  }

  /** The contents of a client, read off its whole. */
  lemma InWhole(db: Tables, c: Id)
    requires c in db.clients
    ensures var w := View(db, c).value;
            && w.version == db.clients[c].version && w.profile == db.clients[c].profile
            && (forall id: Id :: id in w.users <==> PartKey(c, id) in db.users)
            && (forall id: Id :: id in w.purposes <==> PartKey(c, id) in db.purposes)
            && forall kid: Id :: DataOf(db, c, kid) == Lookup(w.keys, kid)
  {
    PartsInView(db.users, c);
    PartsInView(db.purposes, c);
    forall kid: Id ensures DataOf(db, c, kid) == Lookup(KeysOf(db.keys, c), kid) { DataInView(db, c, kid); }
  }

  ghost predicate IsChange(before: Tables, now: Tables, event: EventV1, version: nat) {
    var c, op := ClientIdOf(event), CallV1(event).op;
    && c in before.clients && ChangesPart(op)
    && View(now, c) == Some(Changed(View(before, c).value, op).(version := version))
  }

  lemma {:induction false} UsersMoved(before: Tables, now: Tables, event: EventV1, version: nat)
    requires (event.UserAdded? || event.UserRemoved?) && IsChange(before, now, event, version)
    ensures Moves(before, now, event, version)
  {
    InWhole(before, event.clientId);
    InWhole(now, event.clientId);
  }

  lemma {:induction false} PurposesMoved(before: Tables, now: Tables, event: EventV1, version: nat)
    requires (event.ClientPurposeAdded? || event.ClientPurposeRemoved?) && IsChange(before, now, event, version)
    ensures Moves(before, now, event, version)
  {
    InWhole(before, event.clientId);
    InWhole(now, event.clientId);
  }

  lemma KeysMoved(before: Tables, now: Tables, event: EventV1, version: nat)
    requires event.KeysAdded? && IsChange(before, now, event, version)
    ensures Moves(before, now, event, version)
  {
    var c := ClientIdOf(event);
    InWhole(before, c);
    InWhole(now, c);
    KeysMerged(before, now, c, event.keys);
  }

  lemma KeysMerged(before: Tables, now: Tables, c: Id, keys: seq<Option<KeyV1>>)
    requires KeysOf(now.keys, c) == Merged(KeysOf(before.keys, c), Storable(keys))
    ensures AddsKeys(before, now, c, keys)
  {
    forall kid: Id ensures AddsKeyAt(DataOf(before, c, kid), DataOf(now, c, kid), keys, kid) {
      KeyMerged(KeysOf(before.keys, c), keys, kid);
      DataInView(before, c, kid);
      DataInView(now, c, kid);
    }
  }

  lemma KeyMoved(before: Tables, now: Tables, event: EventV1, version: nat)
    requires event.KeyDeleted? || event.KeyRelationshipToUserMigrated?
    requires IsChange(before, now, event, version)
    ensures Moves(before, now, event, version)
  {
    InWhole(before, ClientIdOf(event));
    InWhole(now, ClientIdOf(event));
  }

  lemma SameViewsSameTables(before: Tables, now: Tables, c: Id)
    requires Uniform(before) && Uniform(now) && OthersSame(before, now, c) && View(now, c) == View(before, c)
    ensures now == before
  {
    forall d: Id ensures View(now, d) == View(before, d) {}
    ViewsDecide(now, before);
  }

  lemma CallMoves(before: Tables, now: Tables, event: EventV1, version: nat)
    requires Uniform(now) && !IsNewer(before, ClientIdOf(event), version) && !IsEmptyBatch(event)
    requires ClientIdOf(event) in before.clients || event.ClientAdded?
    requires Apply(View(before, ClientIdOf(event)), CallV1(event).op, version) == Ok(View(now, ClientIdOf(event)))
    ensures Moves(before, now, event, version)
  {
    if event.KeysAdded? { StorableKeys(event.keys); }
    if event.ClientAdded? {
      SnapshotHeld(now, event.client, version);
    } else if event.ClientDeleted? {
      GoneHeld(now, event.clientId);
    } else if event.KeysAdded? {
      KeysMoved(before, now, event, version);
    } else if event.KeyDeleted? || event.KeyRelationshipToUserMigrated? {
      KeyMoved(before, now, event, version);
    } else if event.UserAdded? || event.UserRemoved? {
      UsersMoved(before, now, event, version);
    } else {
      PurposesMoved(before, now, event, version);
    }
  }

  /** A writer call for a V1 message leaves what the message says. */
  lemma CallHasEffectV1(before: Tables, now: Tables, event: EventV1, version: nat, o: Transaction)
    requires Uniform(before) && Does(before, now, CallV1(event).clientId, CallV1(event).op, version, o)
    ensures EffectV1(before, now, event, version, o)
  {
    var c := CallV1(event).clientId;
    if event.KeysAdded? { StorableKeys(event.keys); }
    if o.Committed? {
      OthersStayed(before, now, c);
      if IsNewer(before, c, version) || IsEmptyBatch(event) || (c !in before.clients && !event.ClientAdded?) {
        SameViewsSameTables(before, now, c);
      } else {
        CallMoves(before, now, event, version);
      }
    }
  }

  /** So does one for a V2 message. */
  lemma CallHasEffectV2(before: Tables, now: Tables, event: EventV2, version: nat, o: Transaction)
    requires Uniform(before) && Does(before, now, CallV2(event).clientId, CallV2(event).op, version, o)
    ensures EffectV2(before, now, event, version, o)
  {
    var c := CallV2(event).clientId;
    if o.Committed? {
      OthersStayed(before, now, c);
      if IsNewer(before, c, version) {
        SameViewsSameTables(before, now, c);
      } else if event.ClientDeletedV2? {
        GoneHeld(now, c);
      } else {
        SnapshotHeld(now, event.client, version);
      }
    }
  }
}
