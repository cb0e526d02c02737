/** The authorization consumer: what one message does to both tables when handlers run one at a time. */
module AuthorizationWriter {
  import opened Basics
  import opened TokenKeys
  import opened PlatformModel

  datatype Key = Key(kid: Id, encodedPem: string)

  datatype Client = Client(id: Id, consumerId: Id, kind: ClientKind, purposes: seq<Id>, keys: seq<Key>)

  function SetClient(pf: Platform, id: Id, row: ClientRow): Platform {
    pf.(clients := pf.clients[id := row])
  }

  predicate IsStale(row: Option<ClientRow>, version: nat) {
    row.Some? && row.value.version > version
  }

  function Deduplicated(ids: seq<Id>, id: Id): seq<Id> {
    if id in ids then ids else ids + [id]
  }

  function Without(ids: seq<Id>, id: Id): seq<Id> {
    if ids == [] then []
    else if ids[0] == id then Without(ids[1..], id)
    else [ids[0]] + Without(ids[1..], id)
  }

  // ---- token-generation-states ----

  /** One complete entry per purpose for one key, each equal to the join. */
  function EntriesOfKey(clientId: Id, kid: Id, pem: string, purposes: seq<Id>, pf: Platform): Tokens {
    map p | p in purposes :: ClientKidPurpose(clientId, kid, p) := Join(pem, Retrieve(pf, p))
  }

  /** The kids found by scanning for keys that contain the client id. */
  function ScannedKids(tokens: Tokens, clientId: Id): set<Id> {
    set pk | pk in tokens && Hits(ContainsText(clientId), pk) :: pk.kid
  }

  /** The public key of a scanned kid. */
  ghost function PemOf(tokens: Tokens, clientId: Id, kid: Id): string
    requires kid in ScannedKids(tokens, clientId)
  {
    var pk :| pk in tokens && Hits(ContainsText(clientId), pk) && pk.kid == kid;
    tokens[pk].publicKey
  }

  /** `upsertTokenGenStatesConsumerClientsV1` with its second retrieval: one complete entry per scanned
      kid; the partial entries go when the purpose is the only one. */
  ghost function AddPurpose(tokens: Tokens, clientId: Id, purposeId: Id, only: bool, pf: Platform): Tokens {
    (map pk | pk in tokens && !(only && Hits(ContainsText(clientId), pk) && pk.ClientKid?) :: tokens[pk])
    + (map kid | kid in ScannedKids(tokens, clientId) ::
         ClientKidPurpose(clientId, kid, purposeId) := Join(PemOf(tokens, clientId, kid), Retrieve(pf, purposeId)))
  }

  predicate OfPurpose(pk: TokenPK, clientId: Id, purposeId: Id) {
    pk.ClientKidPurpose? && pk.clientId == clientId && pk.purposeId == purposeId
  }

  /** `deleteEntriesFromTokenGenStatesByClientIdPurposeIdV1` */
  function DropPurpose(tokens: Tokens, clientId: Id, purposeId: Id): Tokens {
    map pk | pk in tokens && !OfPurpose(pk, clientId, purposeId) :: tokens[pk]
  }

  /** `convertEntriesToClientKidInTokenGenerationStates`: complete entries become partial ones. */
  function ConvertPurpose(tokens: Tokens, clientId: Id, purposeId: Id): Tokens {
    DropPurpose(tokens, clientId, purposeId)
    + (map pk | pk in tokens && OfPurpose(pk, clientId, purposeId) ::
         ClientKid(clientId, pk.kid) :=
           PartialEntry(tokens[pk].clientKind, tokens[pk].publicKey, tokens[pk].consumerId))
  }

  function DropKidV1(tokens: Tokens, clientId: Id, kid: Id): Tokens {
    map pk | pk in tokens && !HitsKid(clientId, kid, pk) :: tokens[pk]
  }

  function DropClientV1(tokens: Tokens, clientId: Id): Tokens {
    map pk | pk in tokens && !HitsClient(clientId, pk) :: tokens[pk]
  }

  // ---- V1 messages ----

  datatype EventV1 =
    | ClientAdded(client: Client)
    | KeysAdded(clientId: Id, keys: seq<Key>)
    | KeyDeleted(clientId: Id, kid: Id)
    | ClientPurposeAdded(clientId: Id, purposeId: Id)      // "" when the message carries none
    | ClientPurposeRemoved(clientId: Id, purposeId: Id)
    | ClientDeleted(clientId: Id)
    | OtherV1

  /** Only the first key of KeysAdded is written. */
  ghost function HandleV1(s: Store, event: EventV1, version: nat): Result<Store> {
    match event
    case ClientAdded(client) =>
      if IsStale(Lookup(s.platform.clients, client.id), version) then Ok(s)
      else Ok(s.(platform := SetClient(s.platform, client.id,
                                       ClientRow(client.kind, client.consumerId, client.purposes, version))))
    case KeysAdded(clientId, keys) =>
      if keys == [] then Failed
      else
        var row := Lookup(s.platform.clients, clientId);
        if row.None? || IsStale(row, version) then Ok(s)
        else
          var tokens :=
            if row.value.kind.Consumer? && row.value.purposesIds != [] then
              s.tokens + EntriesOfKey(clientId, keys[0].kid, keys[0].encodedPem, row.value.purposesIds, s.platform)
            else
              s.tokens[ClientKid(clientId, keys[0].kid) :=
                         PartialEntry(row.value.kind, keys[0].encodedPem, Some(row.value.consumerId))];
          Ok(Store(SetClient(s.platform, clientId, row.value.(version := version)), tokens))
    case KeyDeleted(clientId, kid) =>
      var row := Lookup(s.platform.clients, clientId);
      if row.None? || IsStale(row, version) then Ok(s)
      else Ok(Store(SetClient(s.platform, clientId, row.value.(version := version)),
                    DropKidV1(s.tokens, clientId, kid)))
    case ClientPurposeAdded(clientId, purposeId) =>
      if purposeId == "" then Failed
      else
        var row := Lookup(s.platform.clients, clientId);
        if row.None? || IsStale(row, version) then Ok(s)
        else
          var ids := Deduplicated(row.value.purposesIds, purposeId);
          Ok(Store(SetClient(s.platform, clientId, row.value.(purposesIds := ids, version := version)),
                   AddPurpose(s.tokens, clientId, purposeId, |ids| == 1, s.platform)))
    case ClientPurposeRemoved(clientId, purposeId) =>
      var row := Lookup(s.platform.clients, clientId);
      if row.None? || IsStale(row, version) then Ok(s)
      else
        var ids := Without(row.value.purposesIds, purposeId);
        Ok(Store(SetClient(s.platform, clientId, row.value.(purposesIds := ids, version := version)),
                 if ids != [] then DropPurpose(s.tokens, clientId, purposeId)
                 else ConvertPurpose(s.tokens, clientId, purposeId)))
    case ClientDeleted(clientId) =>
      Ok(Store(s.platform.(clients := s.platform.clients - {clientId}), DropClientV1(s.tokens, clientId)))
    case OtherV1 => Ok(s)
  }

  // ---- V2 messages ----

  function FindKey(keys: seq<Key>, kid: Id): Option<Key> {
    if keys == [] then None else if keys[0].kid == kid then Some(keys[0]) else FindKey(keys[1..], kid)
  }

  function Kids(keys: seq<Key>): set<Id> {
    set k | k in keys :: k.kid
  }

  /** The public keys of a snapshot; a later key with the same kid wins, as the last put does. */
  function KeyRing(keys: seq<Key>): map<Id, string>
    ensures KeyRing(keys).Keys == Kids(keys)
  {
    if keys == [] then map[]
    else
      var init, last := keys[..|keys| - 1], keys[|keys| - 1];
      assert keys == init + [last];
      KeyRing(init)[last.kid := last.encodedPem]
  }

  function EntriesOfPurpose(clientId: Id, purposeId: Id, ring: map<Id, string>, pf: Platform): Tokens {
    map kid | kid in ring :: ClientKidPurpose(clientId, kid, purposeId) := Join(ring[kid], Retrieve(pf, purposeId))
  }

  function DropKeys(tokens: Tokens, keys: set<TokenPK>): Tokens {
    map pk | pk in tokens && pk !in keys :: tokens[pk]
  }

  function PartialKeys(clientId: Id, kids: set<Id>): set<TokenPK> {
    set kid | kid in kids :: ClientKid(clientId, kid)
  }

  function CompleteKeys(clientId: Id, kids: set<Id>, purposes: set<Id>): set<TokenPK> {
    set kid, p | kid in kids && p in purposes :: ClientKidPurpose(clientId, kid, p)
  }

  datatype EventV2 =
    | ClientKeyAddedV2(client: Client, kid: Id)
    | ClientKeyDeletedV2(client: Client, kid: Id)
    | ClientPurposeAddedV2(client: Client, purposeId: Id)
    | ClientPurposeRemovedV2(client: Client, purposeId: Id)
    | ClientDeletedV2(client: Client)
    | OtherV2

  function RowV2(client: Client, version: nat): ClientRow {
    ClientRow(client.kind, client.consumerId, [], version)
  }

  /** Entries that a V2 deletion names: it builds the keys from the snapshot. */
  function DoomedKeys(client: Client, kids: set<Id>): set<TokenPK> {
    if client.purposes != [] then CompleteKeys(client.id, kids, ToSet(client.purposes))
    else PartialKeys(client.id, kids)
  }

  function HandleV2(s: Store, event: EventV2, version: nat): Result<Store> {
    match event
    case ClientKeyAddedV2(client, kid) =>
      var key := FindKey(client.keys, kid);
      if key.None? || key.value.encodedPem == "" then Failed
      else if IsStale(Lookup(s.platform.clients, client.id), version) then Ok(s)
      else
        var tokens :=
          if client.kind.Consumer? then
            s.tokens + EntriesOfKey(client.id, kid, key.value.encodedPem, client.purposes, s.platform)
          else
            s.tokens[ClientKid(client.id, kid) := PartialEntry(Api, key.value.encodedPem, Some(client.consumerId))];
        Ok(Store(SetClient(s.platform, client.id, RowV2(client, version)), tokens))
    case ClientKeyDeletedV2(client, kid) =>
      if IsStale(Lookup(s.platform.clients, client.id), version) then Ok(s)
      else Ok(Store(SetClient(s.platform, client.id, RowV2(client, version)),
                    DropKeys(s.tokens, DoomedKeys(client, {kid}))))
    case ClientPurposeAddedV2(client, purposeId) =>
      if IsStale(Lookup(s.platform.clients, client.id), version) then Ok(s)
      else
        var ring := KeyRing(client.keys);
        Ok(Store(SetClient(s.platform, client.id, RowV2(client, version)),
                 DropKeys(s.tokens + EntriesOfPurpose(client.id, purposeId, ring, s.platform),
                          PartialKeys(client.id, ring.Keys))))
    case ClientPurposeRemovedV2(client, purposeId) =>
      var row := Lookup(s.platform.clients, client.id);
      if row.None? || IsStale(row, version) then Ok(s)
      else Ok(Store(SetClient(s.platform, client.id, row.value.(purposesIds := [], version := version)),
                    DropKeys(s.tokens, CompleteKeys(client.id, Kids(client.keys), {purposeId}))))
    case ClientDeletedV2(client) =>
      Ok(Store(s.platform.(clients := s.platform.clients - {client.id}),
               DropKeys(s.tokens, DoomedKeys(client, Kids(client.keys)))))
    case OtherV2 => Ok(s)
  }
}
