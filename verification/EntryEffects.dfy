/**
 What each authorization message leaves of each entry, whatever the tables hold, told key by key from the message
 and the tables before it. What it does to the row of its client is the matter of `AuthorizationEffects`.
 */
module EntryEffects {
  import opened Basics
  import opened TokenKeys
  import opened PlatformModel
  import opened AuthorizationWriter
  import opened AuthorizationEffects

  // ---- entries ----

  predicate Stays(s: Store, s': Store, pk: TokenPK) {
    Lookup(s'.tokens, pk) == Lookup(s.tokens, pk)
  }

  /** A partial entry: kind, public key and consumer, and nothing to join. */
  predicate IsPartialAt(s: Store, pk: TokenPK, kind: ClientKind, pem: string, consumerId: Option<Id>) {
    && pk in s.tokens
    && var e := s.tokens[pk];
       && e.clientKind == kind && e.publicKey == pem && e.consumerId == consumerId
       && e.consumerEservice.None? && e.purposeState.None? && e.purposeVersionId.None?
       && LacksAgreement(e) && LacksDescriptor(e)
  }

  predicate LacksAgreement(e: Entry) {
    e.agreementId.None? && e.agreementState.None? && e.producerId.None? && e.descriptor.None?
  }

  predicate LacksDescriptor(e: Entry) {
    e.descriptorState.None? && e.audience.None? && e.lifespan.None? && e.asyncExchange.None?
  }

  /** The entry repeats the descriptor row, if there is one; a lifespan of zero is not stored. */
  predicate RepeatsDescriptor(pf: Platform, key: EserviceDescriptor, e: Entry) {
    match Lookup(pf.catalog, key)
    case None => LacksDescriptor(e)
    case Some(c) =>
      && e.descriptorState == Some(c.state) && e.audience == Some(c.audience)
      && e.lifespan == (if c.lifespan == 0 then None else Some(c.lifespan)) && e.asyncExchange == c.asyncExchange
  }

  /** The entry repeats the agreement row of its consumer and e-service, if there is one, and its descriptor's. */
  predicate RepeatsAgreement(pf: Platform, key: ConsumerEservice, e: Entry) {
    match Lookup(pf.agreements, key)
    case None => LacksAgreement(e) && LacksDescriptor(e)
    case Some(a) =>
      && e.agreementId == Some(a.agreementId) && e.agreementState == Some(a.state)
      && e.producerId == Some(a.producerId) && e.descriptor == Some(EserviceDescriptor(key.eserviceId, a.descriptorId))
      && RepeatsDescriptor(pf, EserviceDescriptor(key.eserviceId, a.descriptorId), e)
  }

  /** A complete entry repeats the row of its purpose, and the rows that it leads to. */
  predicate RepeatsRows(pf: Platform, purposeId: Id, pem: string, e: Entry) {
    && e.clientKind == Consumer && e.publicKey == pem
    && match Lookup(pf.purposes, purposeId)
       case None =>
         && e.consumerId.None? && e.consumerEservice.None? && e.purposeState.None? && e.purposeVersionId.None?
         && LacksAgreement(e) && LacksDescriptor(e)
       case Some(p) =>
         && e.consumerId == Some(p.consumerId) && e.purposeState == Some(p.state)
         && e.purposeVersionId == Some(p.purposeVersionId)
         && e.consumerEservice == Some(ConsumerEservice(p.consumerId, p.eserviceId))
         && RepeatsAgreement(pf, ConsumerEservice(p.consumerId, p.eserviceId), e)
  }

  /** The join is the one entry that repeats the rows. */
  lemma JoinRepeatsRows(pf: Platform, purposeId: Id, pem: string, e: Entry)
    ensures e == Join(pem, Retrieve(pf, purposeId)) <==> RepeatsRows(pf, purposeId, pem, e)
  {
  }

  predicate IsJoinedAt(s: Store, s': Store, pk: TokenPK, pem: string)
    requires pk.ClientKidPurpose?
  {
    pk in s'.tokens && RepeatsRows(s.platform, pk.purposeId, pem, s'.tokens[pk])
  }

  // ---- V2 messages ----

  lemma FirstIsFound(client: Client, kid: Id, i: nat)
    requires FirstKey(client, kid, i)
    ensures FindKey(client.keys, kid) == Some(client.keys[i])
  {
    FoundFirst(client.keys, client, kid, 0);
    assert client.keys[i] in client.keys;
    var j: nat :| j < |client.keys| && FirstKey(client, kid, j)
                  && client.keys[j] == FindKey(client.keys, kid).value;
    assert i == j;
  }

  /** A key of a consumer gets one joined entry per purpose of the snapshot, one of the API a partial entry. */
  lemma KeyAddedV2(s: Store, client: Client, kid: Id, i: nat, version: nat, pk: TokenPK)
    requires FirstKey(client, kid, i) && client.keys[i].encodedPem != "" && IsNew(s.platform, client.id, version)
    ensures var r, pem := HandleV2(s, ClientKeyAddedV2(client, kid), version), client.keys[i].encodedPem;
            && r.Ok?
            && if client.kind.Consumer? && pk.ClientKidPurpose? && pk.clientId == client.id && pk.kid == kid
                  && pk.purposeId in client.purposes
               then IsJoinedAt(s, r.value, pk, pem)
               else if client.kind.Api? && pk == ClientKid(client.id, kid)
               then IsPartialAt(r.value, pk, Api, pem, Some(client.consumerId))
               else Stays(s, r.value, pk)
  {
    FirstIsFound(client, kid, i);
    if pk.ClientKidPurpose? {
      var pem := client.keys[i].encodedPem;
      JoinRepeatsRows(s.platform, pk.purposeId, pem, Join(pem, Retrieve(s.platform, pk.purposeId)));
    }
  }

  /** The entries that a deletion names: of the snapshot's purposes, or partial ones if it has none. */
  predicate IsNamed(client: Client, pk: TokenPK) {
    && pk.clientId == client.id
    && if client.purposes == [] then pk.ClientKid? else pk.ClientKidPurpose? && pk.purposeId in client.purposes
  }

  predicate InSnapshot(client: Client, kid: Id) {
    exists k <- client.keys :: k.kid == kid
  }

  lemma KeyDeletedV2(s: Store, client: Client, kid: Id, version: nat, pk: TokenPK)
    requires IsNew(s.platform, client.id, version)
    ensures var r := HandleV2(s, ClientKeyDeletedV2(client, kid), version);
            && r.Ok?
            && if IsNamed(client, pk) && pk.kid == kid then pk !in r.value.tokens else Stays(s, r.value, pk)
  {
    assert IsNamed(client, pk) && pk.kid == kid <==> pk in DoomedKeys(client, {kid});
  }

  lemma ClientDeletedV2(s: Store, client: Client, version: nat, pk: TokenPK)
    ensures var r := HandleV2(s, EventV2.ClientDeletedV2(client), version);
            && r.Ok?
            && if IsNamed(client, pk) && InSnapshot(client, pk.kid) then pk !in r.value.tokens
               else Stays(s, r.value, pk)
  {
    assert InSnapshot(client, pk.kid) <==> pk.kid in Kids(client.keys);
    assert IsNamed(client, pk) && pk.kid in Kids(client.keys) <==> pk in DoomedKeys(client, Kids(client.keys));
  }

  lemma PurposeGoneV2(s: Store, client: Client, purposeId: Id, version: nat, pk: TokenPK)
    requires Known(s.platform, client.id, version)
    ensures var r := HandleV2(s, ClientPurposeRemovedV2(client, purposeId), version);
            && r.Ok?
            && if pk.ClientKidPurpose? && pk.clientId == client.id && pk.purposeId == purposeId
                  && InSnapshot(client, pk.kid)
               then pk !in r.value.tokens else Stays(s, r.value, pk)
  {
    assert InSnapshot(client, pk.kid) <==> pk.kid in Kids(client.keys);
  }

  /** The last key of the snapshot with the kid. */
  predicate LastKey(keys: seq<Key>, kid: Id, i: nat) {
    i < |keys| && keys[i].kid == kid && forall j | i < j < |keys| :: keys[j].kid != kid
  }

  lemma {:induction false} RingHoldsLast(keys: seq<Key>, kid: Id, i: nat)
    requires LastKey(keys, kid, i)
    ensures kid in KeyRing(keys) && KeyRing(keys)[kid] == keys[i].encodedPem
  {
    var n := |keys| - 1;
    if i < n {
      assert LastKey(keys[..n], kid, i);
      RingHoldsLast(keys[..n], kid, i);
    }
  }

  lemma {:induction false} HasLast(keys: seq<Key>, kid: Id) returns (i: nat)
    requires exists k <- keys :: k.kid == kid
    ensures LastKey(keys, kid, i)
  {
    var n := |keys| - 1;
    if keys[n].kid == kid { return n; }
    i := HasLast(keys[..n], kid);
  }

  /** Every key of the snapshot gets one joined entry of the purpose, and loses its partial entry. */
  lemma PurposeAddedV2(s: Store, client: Client, purposeId: Id, version: nat, pk: TokenPK)
    requires IsNew(s.platform, client.id, version)
    ensures var r := HandleV2(s, ClientPurposeAddedV2(client, purposeId), version);
            && r.Ok?
            && if pk.clientId != client.id || !InSnapshot(client, pk.kid) then Stays(s, r.value, pk)
               else if pk.ClientKid? then pk !in r.value.tokens
               else if pk.purposeId != purposeId then Stays(s, r.value, pk)
               else forall i: nat | LastKey(client.keys, pk.kid, i) ::
                      IsJoinedAt(s, r.value, pk, client.keys[i].encodedPem)
  {
    var ring := KeyRing(client.keys);
    assert InSnapshot(client, pk.kid) <==> pk.kid in ring;
    if pk.clientId == client.id && InSnapshot(client, pk.kid) && pk.ClientKidPurpose? && pk.purposeId == purposeId {
      forall i: nat | LastKey(client.keys, pk.kid, i) ensures ring[pk.kid] == client.keys[i].encodedPem {
        RingHoldsLast(client.keys, pk.kid, i);
      }
      JoinRepeatsRows(s.platform, purposeId, ring[pk.kid], Join(ring[pk.kid], Retrieve(s.platform, purposeId)));
    }
  }

  // ---- V1 messages ----

  /** Only the first key of the message: one joined entry per purpose of the row, or a partial entry if it has none. */
  lemma KeysAddedV1(s: Store, c: Id, keys: seq<Key>, version: nat, pk: TokenPK)
    requires keys != [] && Known(s.platform, c, version)
    ensures var r, row := HandleV1(s, KeysAdded(c, keys), version), s.platform.clients[c];
            var joins := row.kind.Consumer? && row.purposesIds != [];
            && r.Ok?
            && if joins && pk.ClientKidPurpose? && pk.clientId == c && pk.kid == keys[0].kid
                  && pk.purposeId in row.purposesIds
               then IsJoinedAt(s, r.value, pk, keys[0].encodedPem)
               else if !joins && pk == ClientKid(c, keys[0].kid)
               then IsPartialAt(r.value, pk, row.kind, keys[0].encodedPem, Some(row.consumerId))
               else Stays(s, r.value, pk)
  {
    if pk.ClientKidPurpose? {
      var pem := keys[0].encodedPem;
      JoinRepeatsRows(s.platform, pk.purposeId, pem, Join(pem, Retrieve(s.platform, pk.purposeId)));
    }
  }

  /** All entries of the client whose kid begins with the given one. */
  lemma KeyDeletedV1(s: Store, c: Id, kid: Id, version: nat, pk: TokenPK)
    requires Known(s.platform, c, version) && PlainKey(pk) && Plain(c) && Plain(kid)
    ensures var r := HandleV1(s, KeyDeleted(c, kid), version);
            r.Ok? && if pk.clientId == c && kid <= pk.kid then pk !in r.value.tokens else Stays(s, r.value, pk)
  {
    KidHits(c, kid, pk);
  }

  /** All entries of clients whose id begins with the given one. */
  lemma ClientDeletedV1(s: Store, c: Id, version: nat, pk: TokenPK)
    requires PlainKey(pk) && Plain(c)
    ensures var r := HandleV1(s, ClientDeleted(c), version);
            r.Ok? && if c <= pk.clientId then pk !in r.value.tokens else Stays(s, r.value, pk)
  {
    ClientHits(c, pk);
  }

  /** Complete entries of the purpose go; if it was the only one, each leaves a partial entry with its kind, key and
      consumer. */
  lemma PurposeRemovedV1(s: Store, c: Id, purposeId: Id, version: nat, pk: TokenPK)
    requires Known(s.platform, c, version)
    ensures var r := HandleV1(s, ClientPurposeRemoved(c, purposeId), version);
            var former, others := ClientKidPurpose(c, pk.kid, purposeId),
                                  exists x <- s.platform.clients[c].purposesIds :: x != purposeId;
            && r.Ok?
            && if pk == former then pk !in r.value.tokens
               else if !others && pk == ClientKid(c, pk.kid) && former in s.tokens
               then IsPartialAt(r.value, pk, s.tokens[former].clientKind, s.tokens[former].publicKey,
                      s.tokens[former].consumerId)
               else Stays(s, r.value, pk)
  {
    var ids := s.platform.clients[c].purposesIds;
    WithoutIs(ids, purposeId);
    assert Without(ids, purposeId) == [] <==> forall x <- ids :: x == purposeId by {
      if Without(ids, purposeId) != [] { assert Without(ids, purposeId)[0] in ids; }
    }
  }

  predicate HasKid(tokens: Tokens, c: Id, kid: Id) {
    exists k <- tokens :: k.clientId == c && k.kid == kid
  }

  /** Each of the client's kids has a joined entry of the purpose, and no partial entry if `only`. */
  predicate ScannedAt(s: Store, s': Store, c: Id, purposeId: Id, only: bool, pk: TokenPK) {
    if pk.clientId == c && pk.ClientKid? && only then pk !in s'.tokens
    else if pk.clientId == c && pk.ClientKidPurpose? && pk.purposeId == purposeId && HasKid(s.tokens, c, pk.kid)
    then exists k <- s.tokens :: k.clientId == c && k.kid == pk.kid && IsJoinedAt(s, s', pk, s.tokens[k].publicKey)
    else Stays(s, s', pk)
  }

  /** What the scan for keys that contain the client id makes of one entry, where it finds the client's own alone. */
  lemma {:induction false} ScanAt(s: Store, s': Store, c: Id, purposeId: Id, only: bool, pk: TokenPK)
    requires s'.tokens == AddPurpose(s.tokens, c, purposeId, only, s.platform)
    requires forall k <- s.tokens :: Hits(ContainsText(c), k) <==> k.clientId == c
    ensures ScannedAt(s, s', c, purposeId, only, pk)
  {
    assert HasKid(s.tokens, c, pk.kid) <==> pk.kid in ScannedKids(s.tokens, c);
    if pk.clientId == c && pk.ClientKidPurpose? && pk.purposeId == purposeId && HasKid(s.tokens, c, pk.kid) {
      var pem := PemOf(s.tokens, c, pk.kid);
      JoinRepeatsRows(s.platform, purposeId, pem, Join(pem, Retrieve(s.platform, purposeId)));
    }
  }

  /** Every key of the client that the scan finds gets one joined entry of the purpose, and its partial entry goes if
      the purpose is the only one. */
  lemma {:induction false} PurposeAddedV1(s: Store, c: Id, purposeId: Id, version: nat, pk: TokenPK)
    requires purposeId != "" && Known(s.platform, c, version) && Apart(s.tokens.Keys, c)
    ensures var r := HandleV1(s, ClientPurposeAdded(c, purposeId), version);
            var ids := s.platform.clients[c].purposesIds;
            r.Ok? && ScannedAt(s, r.value, c, purposeId, ids == [] || ids == [purposeId], pk)
  {
    var ids := s.platform.clients[c].purposesIds;
    forall k | k in s.tokens ensures Hits(ContainsText(c), k) <==> k.clientId == c {
      ApartIsExact(s.tokens.Keys, c, k);
    }
    var only := |Deduplicated(ids, purposeId)| == 1;
    assert only <==> ids == [] || ids == [purposeId];
    ScanAt(s, HandleV1(s, ClientPurposeAdded(c, purposeId), version).value, c, purposeId, only, pk);
  }
}
