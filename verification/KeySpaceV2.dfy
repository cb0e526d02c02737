/**
 The key space of one client under V2 messages, each of which carries the client as it is after the event.
 Starting from any V1-shaped state, the complete entries of a consumer client are always exactly the snapshot's
 keys times its purposes, and client/kid entries only remain while it has no purpose. A client of the API has
 exactly one client/kid entry per key of the snapshot, in the name of the snapshot's consumer.
 */
module KeySpaceV2 {
  import opened Basics
  import opened TokenKeys
  import opened PlatformModel
  import opened AuthorizationWriter
  import V1 = KeySpaceV1

  /** The client as the last message described it. */
  datatype Snapshot = Snapshot(kind: ClientKind, consumerId: Id, ring: map<Id, string>, purposes: set<Id>)

  /** One key of client `c` in the table. */
  predicate EntryIs(tokens: Tokens, c: Id, sn: Snapshot, pk: TokenPK) {
    pk.clientId == c ==>
      && (pk.ClientKidPurpose? ==> (pk in tokens <==> pk.kid in sn.ring && pk.purposeId in sn.purposes))
      && (pk.ClientKid? && pk in tokens ==> pk.kid in sn.ring && sn.purposes == {})
      && (pk.ClientKidPurpose? && pk in tokens ==> tokens[pk].publicKey == sn.ring[pk.kid])
      && (sn.kind.Api? ==> sn.purposes == {} && (pk.ClientKid? ==> ApiEntryIs(tokens, sn, pk)))
  }

  predicate ApiEntryIs(tokens: Tokens, sn: Snapshot, pk: TokenPK) {
    && (pk in tokens <==> pk.kid in sn.ring)
    && (pk in tokens ==> V1.IsPartial(tokens[pk], Api, sn.ring[pk.kid], Some(sn.consumerId)))
  }

  ghost predicate EntriesAre(tokens: Tokens, c: Id, sn: Snapshot) {
    forall pk: TokenPK :: EntryIs(tokens, c, sn, pk)
  }

  /** The row is the client's and never ahead of the stream, and exists once there are entries to remove. */
  predicate RowOk(pf: Platform, c: Id, sn: Snapshot, version: nat) {
    && (c in pf.clients ==>
          && pf.clients[c].version <= version
          && pf.clients[c].kind == sn.kind && pf.clients[c].consumerId == sn.consumerId)
    && (sn.purposes != {} ==> c in pf.clients)
  }

  ghost predicate Shaped(s: Store, c: Id, sn: Snapshot, version: nat) {
    RowOk(s.platform, c, sn, version) && EntriesAre(s.tokens, c, sn)
  }

  function SnapshotOf(client: Client): Snapshot {
    Snapshot(client.kind, client.consumerId, KeyRing(client.keys), ToSet(client.purposes))
  }

  /** The client as V1 messages have left it. */
  function SnapshotOfModel(m: V1.Model): Snapshot {
    Snapshot(m.kind, m.consumerId, m.keys, ToSet(m.purposes))
  }

  /** Migration: a V1-shaped client is V2-shaped. */
  lemma MigrationKeepsShape(s: Store, c: Id, m: V1.Model, version: nat)
    requires V1.Shaped(s, c, Some(m), version)
    requires m.kind.Api? ==> V1.Filled(s, c, Some(m)) && V1.HeldByConsumer(m)
    ensures Shaped(s, c, SnapshotOfModel(m), version)
  {
    forall pk: TokenPK ensures EntryIs(s.tokens, c, SnapshotOfModel(m), pk) {
      assert V1.EntryIs(s.tokens, c, m, pk);
      if m.kind.Api? { assert V1.ContentIs(s.tokens, c, m, s.platform, pk); }
    }
    assert m.purposes != [] ==> m.purposes[0] in m.purposes;
  }

  predicate Distinct(keys: seq<Key>) {
    forall i, j | 0 <= i < j < |keys| :: keys[i].kid != keys[j].kid
  }

  /** The snapshot of a message is the previous one changed by the event, and names each kid once. */
  predicate Follows(sn: Snapshot, event: EventV2, c: Id) {
    match event
    case ClientKeyAddedV2(client, kid) =>
      && client.id == c && Distinct(client.keys)
      && kid in KeyRing(client.keys) && KeyRing(client.keys)[kid] != ""
      && SnapshotOf(client) == sn.(ring := sn.ring[kid := KeyRing(client.keys)[kid]])
    case ClientKeyDeletedV2(client, kid) =>
      client.id == c && Distinct(client.keys) && SnapshotOf(client) == sn.(ring := sn.ring - {kid})
    case ClientPurposeAddedV2(client, p) =>
      client.id == c && client.kind == Consumer && Distinct(client.keys)
        && SnapshotOf(client) == sn.(purposes := sn.purposes + {p})
    case ClientPurposeRemovedV2(client, p) =>
      client.id == c && Distinct(client.keys) && SnapshotOf(client) == sn.(purposes := sn.purposes - {p})
        && p in sn.purposes
    case ClientDeletedV2(client) => client.id == c && Distinct(client.keys) && SnapshotOf(client) == sn
    case OtherV2 => true
  }

  function Next(sn: Snapshot, event: EventV2): Snapshot {
    match event
    case ClientDeletedV2(_) => sn.(ring := map[], purposes := {})
    case OtherV2 => sn
    case _ => SnapshotOf(event.client)
  }

  lemma {:induction false} FoundInRing(keys: seq<Key>, kid: Id)
    requires Distinct(keys) && kid in KeyRing(keys)
    ensures FindKey(keys, kid) == Some(Key(kid, KeyRing(keys)[kid]))
  {
    var i :| 0 <= i < |keys| && keys[i].kid == kid;
    RingAt(keys, i);
    FoundAt(keys, i);
  }

  lemma {:induction false} RingAt(keys: seq<Key>, i: nat)
    requires Distinct(keys) && i < |keys|
    ensures KeyRing(keys)[keys[i].kid] == keys[i].encodedPem
  {
    var n := |keys| - 1;
    if i < n {
      assert keys[..n][i] == keys[i];
      RingAt(keys[..n], i);
    }
  }

  lemma {:induction false} FoundAt(keys: seq<Key>, i: nat)
    requires Distinct(keys) && i < |keys|
    ensures FindKey(keys, keys[i].kid) == Some(keys[i])
  {
    if i > 0 {
      assert keys[1..][i - 1] == keys[i];
      FoundAt(keys[1..], i - 1);
    }
  }

  lemma StepKeeps(s: Store, c: Id, sn: Snapshot, event: EventV2, before: nat, version: nat)
    requires Shaped(s, c, sn, before) && before <= version && Follows(sn, event, c)
    ensures HandleV2(s, event, version).Ok?
    ensures Shaped(HandleV2(s, event, version).value, c, Next(sn, event), version)
  {
    if event.ClientKeyAddedV2? {
      FoundInRing(event.client.keys, event.kid);
    }
    var s' := HandleV2(s, event, version).value;
    forall pk: TokenPK ensures EntryIs(s'.tokens, c, Next(sn, event), pk) {
      assert EntryIs(s.tokens, c, sn, pk);
      EntryStep(s, c, sn, event, before, version, pk);
    }
  }

  lemma DoomedAre(client: Client, kids: set<Id>, pk: TokenPK)
    ensures pk in DoomedKeys(client, kids) <==>
            && pk.clientId == client.id && pk.kid in kids
            && if ToSet(client.purposes) == {} then pk.ClientKid?
               else pk.ClientKidPurpose? && pk.purposeId in ToSet(client.purposes)
  {
    assert client.purposes != [] ==> client.purposes[0] in ToSet(client.purposes);
  }

  lemma EntryStep(s: Store, c: Id, sn: Snapshot, event: EventV2, before: nat, version: nat, pk: TokenPK)
    requires RowOk(s.platform, c, sn, before) && EntryIs(s.tokens, c, sn, pk) && before <= version
               && Follows(sn, event, c)
    requires event.ClientKeyAddedV2? ==>
               FindKey(event.client.keys, event.kid) == Some(Key(event.kid, KeyRing(event.client.keys)[event.kid]))
    ensures EntryIs(HandleV2(s, event, version).value.tokens, c, Next(sn, event), pk)
  {
    match event
    case ClientKeyAddedV2(client, kid) => KeyAddedStep(s, c, sn, client, kid, before, version, pk);
    case ClientKeyDeletedV2(client, kid) => DoomedAre(client, {kid}, pk);
    case ClientPurposeAddedV2(client, p) => PurposeAddedStep(s, c, sn, client, p, before, version, pk);
    case ClientPurposeRemovedV2(client, p) => PurposeRemovedStep(s, c, sn, client, p, before, version, pk);
    case ClientDeletedV2(client) => DoomedAre(client, Kids(client.keys), pk);
    case OtherV2 =>
  }

  lemma KeyEntriesAt(tokens: Tokens, c: Id, kid: Id, pem: string, purposes: seq<Id>, pf: Platform, pk: TokenPK)
    ensures var tokens' := tokens + EntriesOfKey(c, kid, pem, purposes, pf);
            var added := pk.ClientKidPurpose? && pk.clientId == c && pk.kid == kid && pk.purposeId in purposes;
            && (pk in tokens' <==> added || pk in tokens)
            && (pk in tokens' ==> if added then tokens'[pk].publicKey == pem else tokens'[pk] == tokens[pk])
  {
  }

  lemma KeyAddedStep(s: Store, c: Id, sn: Snapshot, client: Client, kid: Id, before: nat, version: nat, pk: TokenPK)
    requires RowOk(s.platform, c, sn, before) && EntryIs(s.tokens, c, sn, pk) && before <= version
    requires Follows(sn, ClientKeyAddedV2(client, kid), c)
    requires FindKey(client.keys, kid) == Some(Key(kid, KeyRing(client.keys)[kid]))
    ensures EntryIs(HandleV2(s, ClientKeyAddedV2(client, kid), version).value.tokens, c, SnapshotOf(client), pk)
  {
    if client.kind.Api? {
      ApiKeyAddedStep(s, c, sn, client, kid, before, version, pk);
      return;
    }
    KeyAddedTokens(s, client, kid, version);
    KeyEntriesAt(s.tokens, c, kid, KeyRing(client.keys)[kid], client.purposes, s.platform, pk);
    var tokens' := s.tokens + EntriesOfKey(c, kid, KeyRing(client.keys)[kid], client.purposes, s.platform);
    NewKeyKeeps(s.tokens, tokens', c, sn, kid, KeyRing(client.keys)[kid], pk);
  }

  /** One entry per key, in the name of the client's consumer. */
  lemma ApiKeyAddedStep(s: Store, c: Id, sn: Snapshot, client: Client, kid: Id, before: nat, version: nat, pk: TokenPK)
    requires RowOk(s.platform, c, sn, before) && EntryIs(s.tokens, c, sn, pk) && before <= version
    requires Follows(sn, ClientKeyAddedV2(client, kid), c) && client.kind.Api?
    requires FindKey(client.keys, kid) == Some(Key(kid, KeyRing(client.keys)[kid]))
    ensures EntryIs(HandleV2(s, ClientKeyAddedV2(client, kid), version).value.tokens, c, SnapshotOf(client), pk)
  {
  }

  lemma KeyAddedTokens(s: Store, client: Client, kid: Id, version: nat)
    requires kid in KeyRing(client.keys) && KeyRing(client.keys)[kid] != "" && client.kind == Consumer
    requires FindKey(client.keys, kid) == Some(Key(kid, KeyRing(client.keys)[kid]))
    requires !IsStale(Lookup(s.platform.clients, client.id), version)
    ensures HandleV2(s, ClientKeyAddedV2(client, kid), version).value.tokens
         == s.tokens + EntriesOfKey(client.id, kid, KeyRing(client.keys)[kid], client.purposes, s.platform)
  {
  }

  lemma NewKeyKeeps(tokens: Tokens, tokens': Tokens, c: Id, sn: Snapshot, kid: Id, pem: string, pk: TokenPK)
    requires EntryIs(tokens, c, sn, pk) && sn.kind.Consumer?
    requires var added := pk.ClientKidPurpose? && pk.clientId == c && pk.kid == kid && pk.purposeId in sn.purposes;
             && (pk in tokens' <==> added || pk in tokens)
             && (pk in tokens' ==> if added then tokens'[pk].publicKey == pem else tokens'[pk] == tokens[pk])
    ensures EntryIs(tokens', c, sn.(ring := sn.ring[kid := pem]), pk)
  {
  }

  lemma PurposeAddedStep(s: Store, c: Id, sn: Snapshot, client: Client, p: Id, before: nat, version: nat, pk: TokenPK)
    requires RowOk(s.platform, c, sn, before) && EntryIs(s.tokens, c, sn, pk) && before <= version
    requires Follows(sn, ClientPurposeAddedV2(client, p), c)
    ensures EntryIs(HandleV2(s, ClientPurposeAddedV2(client, p), version).value.tokens, c, SnapshotOf(client), pk)
  {
  }

  lemma PurposeRemovedStep(s: Store, c: Id, sn: Snapshot, client: Client, p: Id, before: nat, version: nat, pk: TokenPK)
    requires RowOk(s.platform, c, sn, before) && EntryIs(s.tokens, c, sn, pk) && before <= version
    requires Follows(sn, ClientPurposeRemovedV2(client, p), c)
    ensures EntryIs(HandleV2(s, ClientPurposeRemovedV2(client, p), version).value.tokens, c, SnapshotOf(client), pk)
  {
  }

  // ---- whole runs ----

  datatype Message = Message(event: EventV2, version: nat)

  function RunV2(s: Store, log: seq<Message>): Store {
    if log == [] then s
    else
      var before, last := RunV2(s, log[..|log| - 1]), log[|log| - 1];
      match HandleV2(before, last.event, last.version)
      case Ok(s') => s'
      case Failed => before
  }

  predicate About(event: EventV2, c: Id) {
    !event.OtherV2? && event.client.id == c
  }

  /** A message about another client leaves the client's row and entries alone: handlers build keys from the
      snapshot that it carries. */
  lemma OthersKeep(s: Store, c: Id, sn: Snapshot, event: EventV2, before: nat, version: nat)
    requires Shaped(s, c, sn, before) && !About(event, c) && HandleV2(s, event, version).Ok?
    ensures Shaped(HandleV2(s, event, version).value, c, sn, before)
  {
    var s' := HandleV2(s, event, version).value;
    forall pk: TokenPK ensures EntryIs(s'.tokens, c, sn, pk) {
      assert EntryIs(s.tokens, c, sn, pk);
      if pk.clientId == c { OthersUntouched(s, event, version, pk); }
    }
  }

  lemma OthersUntouched(s: Store, event: EventV2, version: nat, pk: TokenPK)
    requires !About(event, pk.clientId) && HandleV2(s, event, version).Ok?
    ensures Lookup(HandleV2(s, event, version).value.tokens, pk) == Lookup(s.tokens, pk)
  {
    match event
    case ClientKeyAddedV2(_, _) =>
    case ClientKeyDeletedV2(_, _) =>
    case ClientPurposeAddedV2(_, _) =>
    case ClientPurposeRemovedV2(_, _) =>
    case ClientDeletedV2(_) =>
    case OtherV2 =>
  }

  /** The client as its last message in the log described it. */
  function Latest(sn: Snapshot, c: Id, log: seq<Message>): Snapshot {
    if log == [] then sn
    else
      var before, event := Latest(sn, c, log[..|log| - 1]), log[|log| - 1].event;
      if About(event, c) then Next(before, event) else before
  }

  function LastVersion(start: nat, c: Id, log: seq<Message>): nat {
    if log == [] then start
    else if About(log[|log| - 1].event, c) then log[|log| - 1].version
    else LastVersion(start, c, log[..|log| - 1])
  }

  /** The client's messages in order of version, each snapshot following the one before, among the messages of any
      other clients. */
  predicate StreamFrom(sn: Snapshot, start: nat, c: Id, log: seq<Message>) {
    forall i | 0 <= i < |log| && About(log[i].event, c) ::
      Follows(Latest(sn, c, log[..i]), log[i].event, c) && LastVersion(start, c, log[..i]) <= log[i].version
  }

  /** After every V2 message the complete entries are the snapshot's keys times its purposes. */
  lemma {:induction false} KeySpaceIsProduct(s: Store, c: Id, sn: Snapshot, start: nat, log: seq<Message>)
    requires Shaped(s, c, sn, start) && StreamFrom(sn, start, c, log)
    ensures Shaped(RunV2(s, log), c, Latest(sn, c, log), LastVersion(start, c, log))
  {
    if log != [] {
      var n := |log| - 1;
      var init, m := log[..n], log[n];
      forall i | 0 <= i < n && About(init[i].event, c)
        ensures Follows(Latest(sn, c, init[..i]), init[i].event, c)
                  && LastVersion(start, c, init[..i]) <= init[i].version
      {
        assert init[..i] == log[..i];
      }
      KeySpaceIsProduct(s, c, sn, start, init);
      if About(m.event, c) {
        StepKeeps(RunV2(s, init), c, Latest(sn, c, init), m.event, LastVersion(start, c, init), m.version);
      } else if HandleV2(RunV2(s, init), m.event, m.version).Ok? {
        OthersKeep(RunV2(s, init), c, Latest(sn, c, init), m.event, LastVersion(start, c, init), m.version);
      }
    }
  }

  /** Migration and all later messages: complete entries are keys times purposes, client/kid entries are
      among the keys and gone as soon as there is a purpose, and each complete entry holds its key's
      public key. */
  lemma ProductAfterMigration(s: Store, c: Id, m: V1.Model, start: nat, log: seq<Message>)
    requires V1.Shaped(s, c, Some(m), start)
    requires m.kind.Api? ==> V1.Filled(s, c, Some(m)) && V1.HeldByConsumer(m)
    requires StreamFrom(SnapshotOfModel(m), start, c, log)
    ensures var tokens, sn := RunV2(s, log).tokens, Latest(SnapshotOfModel(m), c, log);
            && (set pk | pk in tokens && pk.clientId == c && pk.ClientKidPurpose?)
                 == CompleteKeys(c, sn.ring.Keys, sn.purposes)
            && (set pk | pk in tokens && pk.clientId == c && pk.ClientKid?)
               <= (if sn.purposes == {} then PartialKeys(c, sn.ring.Keys) else {})
            && forall pk <- tokens | pk.clientId == c && pk.ClientKidPurpose? ::
                 pk.kid in sn.ring && tokens[pk].publicKey == sn.ring[pk.kid]
  {
    MigrationKeepsShape(s, c, m, start);
    KeySpaceIsProduct(s, c, SnapshotOfModel(m), start, log);
    var tokens, sn := RunV2(s, log).tokens, Latest(SnapshotOfModel(m), c, log);
    forall pk: TokenPK | pk.clientId == c ensures EntryIs(tokens, c, sn, pk) {}
    forall pk | pk in CompleteKeys(c, sn.ring.Keys, sn.purposes) ensures pk in tokens {
      assert EntryIs(tokens, c, sn, pk);
    }
  }

  /** Kind and consumer of a client never change along its stream. */
  lemma {:induction false} SameHolder(sn: Snapshot, start: nat, c: Id, log: seq<Message>)
    requires StreamFrom(sn, start, c, log)
    ensures Latest(sn, c, log).kind == sn.kind && Latest(sn, c, log).consumerId == sn.consumerId
  {
    if log != [] {
      var n := |log| - 1;
      var init := log[..n];
      forall i | 0 <= i < n && About(init[i].event, c)
        ensures Follows(Latest(sn, c, init[..i]), init[i].event, c)
                  && LastVersion(start, c, init[..i]) <= init[i].version
      {
        assert init[..i] == log[..i];
      }
      SameHolder(sn, start, c, init);
    }
  }

  /** A client of the API after every V2 message: one entry per key of the snapshot and no others, each of kind Api,
      with the key's public key and the client's consumer; and its row, if there is one, says the same of it. */
  lemma ApiEntriesAreKeys(s: Store, c: Id, sn: Snapshot, start: nat, log: seq<Message>, pk: TokenPK)
    requires Shaped(s, c, sn, start) && StreamFrom(sn, start, c, log) && sn.kind == Api && pk.clientId == c
    ensures var s', ring := RunV2(s, log), Latest(sn, c, log).ring;
            && (pk in s'.tokens <==> pk.ClientKid? && pk.kid in ring)
            && (pk in s'.tokens ==> V1.IsPartial(s'.tokens[pk], Api, ring[pk.kid], Some(sn.consumerId)))
            && (c in s'.platform.clients ==>
                  s'.platform.clients[c].kind == Api && s'.platform.clients[c].consumerId == sn.consumerId)
  {
    KeySpaceIsProduct(s, c, sn, start, log);
    SameHolder(sn, start, c, log);
    assert EntryIs(RunV2(s, log).tokens, c, Latest(sn, c, log), pk);
  }
}
