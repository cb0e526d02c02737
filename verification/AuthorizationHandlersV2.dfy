/**
 The authorization consumer as it runs, V2 messages. A finished handler has the whole-table meaning of its
 message, and handling the message again, after a crash at any write or after a success, still ends in that
 meaning.
 */
module AuthorizationHandlersV2 {
  import opened Basics
  import opened TokenKeys
  import opened PlatformModel
  import opened AuthorizationWriter
  import opened TokenGenStore
  import opened EntryWrites

  // ---- several keys, one purpose ----

  ghost predicate RingStored(tokens: Tokens, clientId: Id, purposeId: Id, ring: map<Id, string>) {
    forall kid <- ring ::
      && ClientKidPurpose(clientId, kid, purposeId) in tokens
      && tokens[ClientKidPurpose(clientId, kid, purposeId)].publicKey == ring[kid]
      && ClientKid(clientId, kid) !in tokens
  }

  function OwnOfPurpose(clientId: Id, purposeId: Id, keys: seq<Key>): set<TokenPK> {
    CompleteKeys(clientId, Kids(keys), {purposeId}) + PartialKeys(clientId, Kids(keys))
  }

  /** The entries of the first keys have been put and the partial ones deleted. */
  ghost predicate PurposePut(before: Tokens, now: Tokens, pf: Platform, added: seq<Added>,
                             clientId: Id, purposeId: Id, keys: seq<Key>)
  {
    && |added| <= |keys| && Pending(pf, now, added, 0)
    && AgreeOutside(before, now, OwnOfPurpose(clientId, purposeId, keys))
    && (forall j | 0 <= j < |added| :: added[j].pk == ClientKidPurpose(clientId, keys[j].kid, purposeId))
    && RingStored(now, clientId, purposeId, KeyRing(keys[..|added|]))
  }

  lemma {:induction false} RingNext(keys: seq<Key>, n: nat)
    requires n < |keys|
    ensures KeyRing(keys[..n + 1]) == KeyRing(keys[..n])[keys[n].kid := keys[n].encodedPem]
  {
    assert keys[..n + 1][..n] == keys[..n] && keys[..n + 1][n] == keys[n];
  }

  lemma RingGrows(now: Tokens, clientId: Id, purposeId: Id, ring: map<Id, string>, kid: Id, mem: Entry)
    requires RingStored(now, clientId, purposeId, ring)
    ensures RingStored(now[ClientKidPurpose(clientId, kid, purposeId) := Stored(mem)] - {ClientKid(clientId, kid)},
                       clientId, purposeId, ring[kid := mem.publicKey])
  {
  }

  lemma OwnsKey(clientId: Id, purposeId: Id, keys: seq<Key>, n: nat)
    requires n < |keys|
    ensures ClientKidPurpose(clientId, keys[n].kid, purposeId) in OwnOfPurpose(clientId, purposeId, keys)
    ensures ClientKid(clientId, keys[n].kid) in OwnOfPurpose(clientId, purposeId, keys)
  {
    assert keys[n] in keys && keys[n].kid in Kids(keys);
  }

  lemma StaysOutside(before: Tokens, now: Tokens, own: set<TokenPK>, pk: TokenPK, e: Entry, gone: TokenPK)
    requires AgreeOutside(before, now, own) && pk in own && gone in own
    ensures AgreeOutside(before, now[pk := e], own) && AgreeOutside(before, now[pk := e] - {gone}, own)
  {
  }

  /** The entry of the next key is put and the key's partial entry deleted. */
  lemma {:induction false} PutNextOfPurpose(before: Tokens, now: Tokens, pf: Platform, added: seq<Added>,
                                            clientId: Id, purposeId: Id, keys: seq<Key>, x: Option<Id>)
    requires PurposePut(before, now, pf, added, clientId, purposeId, keys) && |added| < |keys|
    ensures var key := keys[|added|];
            var pk := ClientKidPurpose(clientId, key.kid, purposeId);
            var mem := Create(x, key.encodedPem, Retrieve(pf, purposeId));
            && AgreeOutside(before, now[pk := Stored(mem)], OwnOfPurpose(clientId, purposeId, keys))
            && PurposePut(before, now[pk := Stored(mem)] - {ClientKid(clientId, key.kid)}, pf, added + [Added(pk, mem)],
                          clientId, purposeId, keys)
  {
    var n, kid := |added|, keys[|added|].kid;
    var pk, partial := ClientKidPurpose(clientId, kid, purposeId), ClientKid(clientId, kid);
    var mem := Create(x, keys[n].encodedPem, Retrieve(pf, purposeId));
    var now', added' := now[pk := Stored(mem)] - {partial}, added + [Added(pk, mem)];
    OwnsKey(clientId, purposeId, keys, n);
    StaysOutside(before, now, OwnOfPurpose(clientId, purposeId, keys), pk, Stored(mem), partial);
    PendingNext(pf, now, added, clientId, kid, purposeId, x, keys[n].encodedPem);
    RingNext(keys, n);
    RingGrows(now, clientId, purposeId, KeyRing(keys[..n]), kid, mem);
    assert |added'| == n + 1;
  }

  lemma PendingNext(pf: Platform, now: Tokens, added: seq<Added>, clientId: Id, kid: Id, purposeId: Id, x: Option<Id>,
                    pem: string)
    requires Pending(pf, now, added, 0)
    ensures var pk := ClientKidPurpose(clientId, kid, purposeId);
            var mem := Create(x, pem, Retrieve(pf, purposeId));
            Pending(pf, now[pk := Stored(mem)] - {ClientKid(clientId, kid)}, added + [Added(pk, mem)], 0)
  {
    var pk := ClientKidPurpose(clientId, kid, purposeId);
    var mem := Create(x, pem, Retrieve(pf, purposeId));
    AfterPut(pf, now, added, pk, x, pem);
    AfterDelete(pf, now[pk := Stored(mem)], added + [Added(pk, mem)], ClientKid(clientId, kid));
  }

  /** One put per key, each followed by the deletion of the key's partial entry. */
  method AddPurposeToKeys(t: Tables, clientId: Id, purposeId: Id, keys: seq<Key>) returns (o: Outcome)
    modifies t
    ensures !o.Threw? && t.platform == old(t.platform)
    ensures AgreeOutside(old(t.tokens), t.tokens, OwnOfPurpose(clientId, purposeId, keys))
    ensures o.Done? ==>
              t.tokens == DropKeys(old(t.tokens) + EntriesOfPurpose(clientId, purposeId, KeyRing(keys), t.platform),
                                   PartialKeys(clientId, Kids(keys)))
  {
    ghost var before := t.tokens;
    var r := Retrieve(t.platform, purposeId);
    var added: seq<Added> := [];
    for i := 0 to |keys|
      invariant t.platform == old(t.platform) && |added| == i
      invariant PurposePut(before, t.tokens, t.platform, added, clientId, purposeId, keys)
    {
      PutNextOfPurpose(before, t.tokens, t.platform, added, clientId, purposeId, keys, ConsumerOf(None, r));
      var pk := ClientKidPurpose(clientId, keys[i].kid, purposeId);
      var mem := Create(ConsumerOf(None, r), keys[i].encodedPem, r);
      :- t.PutToken(pk, mem);
      added := added + [Added(pk, mem)];
      :- t.DeleteToken(ClientKid(clientId, keys[i].kid));
    }
    assert keys[..|keys|] == keys;
    ghost var mid := t.tokens;
    o := RefreshAll(t, added);
    RefreshKeepsOwn(before, mid, t.tokens, added, clientId, purposeId, keys);
    if o.Done? {
      PurposeEntriesAreJoined(before, t.tokens, t.platform, added, clientId, purposeId, keys);
    }
  }

  lemma {:induction false} RefreshKeepsOwn(before: Tokens, mid: Tokens, now: Tokens, added: seq<Added>,
                                           clientId: Id, purposeId: Id, keys: seq<Key>)
    requires |added| == |keys| && Refreshed(mid, now, added)
    requires forall j | 0 <= j < |added| :: added[j].pk == ClientKidPurpose(clientId, keys[j].kid, purposeId)
    requires AgreeOutside(before, mid, OwnOfPurpose(clientId, purposeId, keys))
    requires RingStored(mid, clientId, purposeId, KeyRing(keys))
    ensures AgreeOutside(before, now, OwnOfPurpose(clientId, purposeId, keys))
    ensures RingStored(now, clientId, purposeId, KeyRing(keys))
  {
    forall j | 0 <= j < |added| ensures added[j].pk in OwnOfPurpose(clientId, purposeId, keys) {
      OwnsKey(clientId, purposeId, keys, j);
    }
    forall pk: TokenPK | pk !in OwnOfPurpose(clientId, purposeId, keys) ensures Lookup(now, pk) == Lookup(before, pk) {
      assert Lookup(mid, pk) == Lookup(before, pk);
    }
  }

  lemma {:induction false} PurposeEntriesAreJoined(before: Tokens, now: Tokens, pf: Platform, added: seq<Added>,
                                                   clientId: Id, purposeId: Id, keys: seq<Key>)
    requires |added| == |keys| && Pending(pf, now, added, |added|)
    requires AgreeOutside(before, now, OwnOfPurpose(clientId, purposeId, keys))
    requires forall j | 0 <= j < |added| :: added[j].pk == ClientKidPurpose(clientId, keys[j].kid, purposeId)
    requires RingStored(now, clientId, purposeId, KeyRing(keys))
    ensures now == DropKeys(before + EntriesOfPurpose(clientId, purposeId, KeyRing(keys), pf),
                            PartialKeys(clientId, Kids(keys)))
  {
    var ring := KeyRing(keys);
    forall kid | kid in ring ensures
        var pk := ClientKidPurpose(clientId, kid, purposeId);
        pk in now && now[pk] == Join(ring[kid], Retrieve(pf, purposeId))
    {
      var j :| 0 <= j < |keys| && keys[j].kid == kid;
      Settled(pf, now, added, j);
    }
    RingDecides(before, now, pf, clientId, purposeId, ring);
  }

  /** The entries of the ring are the join, its partial entries are gone, the others are as before. */
  lemma RingDecides(before: Tokens, now: Tokens, pf: Platform, clientId: Id, purposeId: Id, ring: map<Id, string>)
    requires AgreeOutside(before, now,
               CompleteKeys(clientId, ring.Keys, {purposeId}) + PartialKeys(clientId, ring.Keys))
    requires RingStored(now, clientId, purposeId, ring)
    requires forall kid <- ring ::
               now[ClientKidPurpose(clientId, kid, purposeId)] == Join(ring[kid], Retrieve(pf, purposeId))
    ensures now == DropKeys(before + EntriesOfPurpose(clientId, purposeId, ring, pf), PartialKeys(clientId, ring.Keys))
  {
    var full := DropKeys(before + EntriesOfPurpose(clientId, purposeId, ring, pf), PartialKeys(clientId, ring.Keys));
    forall pk: TokenPK ensures Lookup(now, pk) == Lookup(full, pk) {
      FullAt(before, pf, clientId, purposeId, ring, pk);
      if pk !in CompleteKeys(clientId, ring.Keys, {purposeId}) + PartialKeys(clientId, ring.Keys) {
        assert Lookup(now, pk) == Lookup(before, pk);
      }
    }
    LookupsDecide(now, full);
  }

  /** The table after ClientPurposeAdded, key by key. */
  lemma FullAt(before: Tokens, pf: Platform, clientId: Id, purposeId: Id, ring: map<Id, string>, pk: TokenPK)
    ensures Lookup(DropKeys(before + EntriesOfPurpose(clientId, purposeId, ring, pf),
              PartialKeys(clientId, ring.Keys)), pk) ==
            if pk in PartialKeys(clientId, ring.Keys) then None
            else if pk in CompleteKeys(clientId, ring.Keys, {purposeId}) then
              Some(Join(ring[pk.kid], Retrieve(pf, purposeId)))
            else Lookup(before, pk)
  {
  }

  // ---- deletions by key ----

  function KidsOf(keys: seq<Key>): (kids: seq<Id>)
    ensures ToSet(kids) == Kids(keys)
  {
    var kids := seq(|keys|, i requires 0 <= i < |keys| => keys[i].kid);
    assert forall k | k in keys :: exists i :: 0 <= i < |keys| && k == keys[i] && kids[i] == k.kid;
    assert forall i | 0 <= i < |keys| :: keys[i] in keys && kids[i] == keys[i].kid;
    kids
  }

  lemma DropsOwn(before: Tokens, now: Tokens, own: set<TokenPK>)
    requires AgreeOutside(before, now, own) && now.Keys !! own
    ensures now == DropKeys(before, own)
  {
    forall pk: TokenPK ensures Lookup(now, pk) == Lookup(DropKeys(before, own), pk) {
      if pk !in own { assert Lookup(now, pk) == Lookup(before, pk); }
    }
    LookupsDecide(now, DropKeys(before, own));
  }

  method DeleteCompletes(t: Tables, clientId: Id, kids: seq<Id>, purposes: seq<Id>) returns (o: Outcome)
    modifies t
    ensures !o.Threw? && t.platform == old(t.platform)
    ensures AgreeOutside(old(t.tokens), t.tokens, CompleteKeys(clientId, ToSet(kids), ToSet(purposes)))
    ensures o.Done? ==> t.tokens == DropKeys(old(t.tokens), CompleteKeys(clientId, ToSet(kids), ToSet(purposes)))
  {
    ghost var own := CompleteKeys(clientId, ToSet(kids), ToSet(purposes));
    for i := 0 to |kids|
      invariant t.platform == old(t.platform) && AgreeOutside(old(t.tokens), t.tokens, own)
      invariant t.tokens.Keys !! CompleteKeys(clientId, ToSet(kids[..i]), ToSet(purposes))
    {
      for j := 0 to |purposes|
        invariant t.platform == old(t.platform) && AgreeOutside(old(t.tokens), t.tokens, own)
        invariant t.tokens.Keys !! CompleteKeys(clientId, ToSet(kids[..i]), ToSet(purposes))
        invariant forall p <- purposes[..j] :: ClientKidPurpose(clientId, kids[i], p) !in t.tokens
      {
        assert ClientKidPurpose(clientId, kids[i], purposes[j]) in own;
        :- t.DeleteToken(ClientKidPurpose(clientId, kids[i], purposes[j]));
      }
    }
    assert kids[..|kids|] == kids;
    DropsOwn(old(t.tokens), t.tokens, own);
    return Done;
  }

  method DeletePartials(t: Tables, clientId: Id, kids: seq<Id>) returns (o: Outcome)
    modifies t
    ensures !o.Threw? && t.platform == old(t.platform)
    ensures AgreeOutside(old(t.tokens), t.tokens, PartialKeys(clientId, ToSet(kids)))
    ensures o.Done? ==> t.tokens == DropKeys(old(t.tokens), PartialKeys(clientId, ToSet(kids)))
  {
    ghost var own := PartialKeys(clientId, ToSet(kids));
    for i := 0 to |kids|
      invariant t.platform == old(t.platform) && AgreeOutside(old(t.tokens), t.tokens, own)
      invariant t.tokens.Keys !! PartialKeys(clientId, ToSet(kids[..i]))
    {
      assert ClientKid(clientId, kids[i]) in own;
      :- t.DeleteToken(ClientKid(clientId, kids[i]));
    }
    assert kids[..|kids|] == kids;
    DropsOwn(old(t.tokens), t.tokens, own);
    return Done;
  }

  /** The deletions of ClientKeyDeleted and ClientDeleted. */
  method DeleteDoomed(t: Tables, client: Client, kids: seq<Id>) returns (o: Outcome)
    modifies t
    ensures !o.Threw? && t.platform == old(t.platform)
    ensures AgreeOutside(old(t.tokens), t.tokens, DoomedKeys(client, ToSet(kids)))
    ensures o.Done? ==> t.tokens == DropKeys(old(t.tokens), DoomedKeys(client, ToSet(kids)))
  {
    if client.purposes != [] {
      o := DeleteCompletes(t, client.id, kids, client.purposes);
    } else {
      o := DeletePartials(t, client.id, kids);
    }
  }

  // ---- messages ----

  /** The entries that a message may touch. */
  function OwnOf(event: EventV2): set<TokenPK> {
    match event
    case ClientKeyAddedV2(client, kid) =>
      if client.kind.Consumer? then OwnOfKey(client.id, kid, client.purposes) else {ClientKid(client.id, kid)}
    case ClientKeyDeletedV2(client, kid) => DoomedKeys(client, {kid})
    case ClientPurposeAddedV2(client, purposeId) => OwnOfPurpose(client.id, purposeId, client.keys)
    case ClientPurposeRemovedV2(client, purposeId) => CompleteKeys(client.id, Kids(client.keys), {purposeId})
    case ClientDeletedV2(client) => DoomedKeys(client, Kids(client.keys))
    case OtherV2 => {}
  }

  function ClientOf(event: EventV2): Id {
    if event.OtherV2? then "" else event.client.id
  }

  /** The guard of the handler on the stored client row. */
  predicate ProceedsV2(pf: Platform, event: EventV2, version: nat) {
    var row := Lookup(pf.clients, ClientOf(event));
    match event
    case ClientPurposeRemovedV2(_, _) => row.Some? && !IsStale(row, version)
    case ClientDeletedV2(_) => true
    case OtherV2 => false
    case _ => !IsStale(row, version)
  }

  function ClientsAfter(pf: Platform, event: EventV2, version: nat): Platform
    requires ProceedsV2(pf, event, version)
  {
    match event
    case ClientPurposeRemovedV2(client, _) =>
      SetClient(pf, client.id, pf.clients[client.id].(purposesIds := [], version := version))
    case ClientDeletedV2(client) => pf.(clients := pf.clients - {client.id})
    case _ => SetClient(pf, event.client.id, RowV2(event.client, version))
  }

  predicate HasKey(event: EventV2) {
    event.ClientKeyAddedV2? ==>
      var key := FindKey(event.client.keys, event.kid); key.Some? && key.value.encodedPem != ""
  }

  function TokensAfter(tokens: Tokens, pf: Platform, event: EventV2): Tokens
    requires HasKey(event)
  {
    match event
    case ClientKeyAddedV2(client, kid) =>
      var pem := FindKey(client.keys, kid).value.encodedPem;
      if client.kind.Consumer? then tokens + EntriesOfKey(client.id, kid, pem, client.purposes, pf)
      else tokens[ClientKid(client.id, kid) := PartialEntry(Api, pem, Some(client.consumerId))]
    case ClientPurposeAddedV2(client, purposeId) =>
      DropKeys(tokens + EntriesOfPurpose(client.id, purposeId, KeyRing(client.keys), pf),
               PartialKeys(client.id, Kids(client.keys)))
    case _ => DropKeys(tokens, OwnOf(event))
  }

  lemma HandleInParts(s: Store, event: EventV2, version: nat)
    ensures HandleV2(s, event, version) ==
            if !HasKey(event) then Failed
            else if !ProceedsV2(s.platform, event, version) then Ok(s)
            else Ok(Store(ClientsAfter(s.platform, event, version), TokensAfter(s.tokens, s.platform, event)))
  {
  }

  lemma SameDrop(before: Tokens, now: Tokens, more: Tokens, gone: set<TokenPK>)
    requires AgreeOutside(before, now, more.Keys + gone)
    ensures DropKeys(now + more, gone) == DropKeys(before + more, gone)
  {
    forall pk: TokenPK ensures Lookup(DropKeys(now + more, gone), pk) == Lookup(DropKeys(before + more, gone), pk) {
      if pk !in more.Keys + gone { assert Lookup(now, pk) == Lookup(before, pk); }
    }
    LookupsDecide(DropKeys(now + more, gone), DropKeys(before + more, gone));
  }

  lemma SameEntriesOfPurpose(pf: Platform, pf': Platform, clientId: Id, purposeId: Id, ring: map<Id, string>)
    requires SameJoinedRows(pf, pf')
    ensures EntriesOfPurpose(clientId, purposeId, ring, pf') == EntriesOfPurpose(clientId, purposeId, ring, pf)
  {
  }

  /** The handler's own writes do not change what the message means for the entries. */
  lemma TokensAgain(tokens: Tokens, now: Tokens, pf: Platform, pf': Platform, event: EventV2)
    requires HasKey(event) && SameJoinedRows(pf, pf')
    requires AgreeOutside(tokens, now, OwnOf(event))
    ensures TokensAfter(now, pf', event) == TokensAfter(tokens, pf, event)
  {
    match event
    case ClientKeyAddedV2(client, kid) =>
      var pem := FindKey(client.keys, kid).value.encodedPem;
      if client.kind.Consumer? {
        SameEntriesOfKey(pf, pf', client.id, kid, pem, client.purposes);
        KeyTokensAgain(tokens, now, pf, client.id, kid, pem, client.purposes);
      } else {
        SamePut(tokens, now, ClientKid(client.id, kid), PartialEntry(Api, pem, Some(client.consumerId)));
      }
    case ClientPurposeAddedV2(client, purposeId) =>
      SameEntriesOfPurpose(pf, pf', client.id, purposeId, KeyRing(client.keys));
      PurposeTokensAgain(tokens, now, pf, client.id, purposeId, client.keys);
    case _ =>
      DroppedTokensAgain(tokens, now, OwnOf(event));
  }

  lemma PurposeTokensAgain(tokens: Tokens, now: Tokens, pf: Platform, clientId: Id, purposeId: Id, keys: seq<Key>)
    requires AgreeOutside(tokens, now, OwnOfPurpose(clientId, purposeId, keys))
    ensures var more := EntriesOfPurpose(clientId, purposeId, KeyRing(keys), pf);
            var gone := PartialKeys(clientId, Kids(keys));
            DropKeys(now + more, gone) == DropKeys(tokens + more, gone)
  {
    var more := EntriesOfPurpose(clientId, purposeId, KeyRing(keys), pf);
    assert more.Keys == CompleteKeys(clientId, Kids(keys), {purposeId});
    SameDrop(tokens, now, more, PartialKeys(clientId, Kids(keys)));
  }

  lemma DroppedTokensAgain(tokens: Tokens, now: Tokens, gone: set<TokenPK>)
    requires AgreeOutside(tokens, now, gone)
    ensures DropKeys(now, gone) == DropKeys(tokens, gone)
  {
    assert now + map[] == now && tokens + map[] == tokens;
    SameDrop(tokens, now, map[], gone);
  }

  /** A message finds the row it wrote itself as it found the row before. */
  lemma HandlesAgain(s: Store, now: Store, event: EventV2, version: nat)
    requires HasKey(event) && ProceedsV2(s.platform, event, version)
    requires now.platform == s.platform || now.platform == ClientsAfter(s.platform, event, version)
    requires AgreeOutside(s.tokens, now.tokens, OwnOf(event))
    ensures HandleV2(now, event, version) == HandleV2(s, event, version)
  {
    TokensAgain(s.tokens, now.tokens, s.platform, now.platform, event);
    RowsAgain(s.platform, now.platform, event, version);
    HandleInParts(s, event, version);
    HandleInParts(now, event, version);
  }

  lemma RowsAgain(pf: Platform, pf': Platform, event: EventV2, version: nat)
    requires ProceedsV2(pf, event, version) && (pf' == pf || pf' == ClientsAfter(pf, event, version))
    ensures ProceedsV2(pf', event, version) && ClientsAfter(pf', event, version) == ClientsAfter(pf, event, version)
  {
  }

  /** The entries of a message, once the client row is written. */
  method WriteEntries(t: Tables, event: EventV2) returns (o: Outcome)
    requires HasKey(event) && !event.OtherV2?
    modifies t
    ensures !o.Threw? && t.platform == old(t.platform) && AgreeOutside(old(t.tokens), t.tokens, OwnOf(event))
    ensures o.Done? ==> t.tokens == TokensAfter(old(t.tokens), t.platform, event)
  {
    match event
    case ClientKeyAddedV2(client, kid) =>
      var pem := FindKey(client.keys, kid).value.encodedPem;
      if client.kind.Consumer? {
        o := AddKey(t, client.id, kid, pem, None, client.purposes);
      } else {
        o := t.PutToken(ClientKid(client.id, kid), PartialEntry(Api, pem, Some(client.consumerId)));
      }
    case ClientKeyDeletedV2(client, kid) =>
      assert ToSet([kid]) == {kid};
      o := DeleteDoomed(t, client, [kid]);
    case ClientPurposeAddedV2(client, purposeId) =>
      o := AddPurposeToKeys(t, client.id, purposeId, client.keys);
    case ClientPurposeRemovedV2(client, purposeId) =>
      assert ToSet([purposeId]) == {purposeId};
      o := DeleteCompletes(t, client.id, KidsOf(client.keys), [purposeId]);
    case ClientDeletedV2(client) =>
      o := DeleteDoomed(t, client, KidsOf(client.keys));
  }

  /** A finished handler has the whole-table meaning of its message, and handling the message again, after a
      crash at any write or after a success, still ends in that meaning. */
  method HandleMessageV2(t: Tables, event: EventV2, version: nat) returns (o: Outcome)
    modifies t
    ensures o.Done? ==> HandleV2(old(t.Now()), event, version) == Ok(t.Now())
    ensures o.Threw? ==> HandleV2(old(t.Now()), event, version).Failed? && t.Now() == old(t.Now())
    ensures HandleV2(t.Now(), event, version) == HandleV2(old(t.Now()), event, version)
  {
    ghost var s := t.Now();
    HandleInParts(s, event, version);
    if !HasKey(event) { return Threw; }
    if !ProceedsV2(t.platform, event, version) { return Done; }
    o := t.WritePlatform(ClientsAfter(t.platform, event, version));
    if o.Done? {
      o := WriteEntries(t, event);
      if o.Done? { TokensAgain(s.tokens, s.tokens, s.platform, t.platform, event); }
    }
    HandlesAgain(s, t.Now(), event, version);
  }

  /** A message is delivered again after every crash, to a new process over the same tables; `writes` are the
      writes that each process makes before it dies. The tables end as after one uninterrupted run. */
  method DeliverV2(t: Tables, event: EventV2, version: nat, writes: seq<nat>) returns (o: Outcome)
    modifies t
    ensures o.Done? ==> HandleV2(old(t.Now()), event, version) == Ok(t.Now())
    ensures HandleV2(t.Now(), event, version) == HandleV2(old(t.Now()), event, version)
  {
    o := Crashed;
    var i := 0;
    while i < |writes| && o.Crashed?
      invariant i <= |writes| && HandleV2(t.Now(), event, version) == HandleV2(old(t.Now()), event, version)
      invariant o.Done? ==> HandleV2(old(t.Now()), event, version) == Ok(t.Now())
    {
      t.Restart(writes[i]);
      o := HandleMessageV2(t, event, version);
      i := i + 1;
    }
  }
}
