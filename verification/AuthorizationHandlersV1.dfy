/**
 The authorization consumer as it runs, V1 messages, which change rows and entries by deltas. A finished
 handler has the whole-table meaning of its message, and handling the message again, after a crash at any
 write or after a success, still ends in that meaning; for ClientPurposeAdded, whenever equal kids of the
 client have equal public keys.
 */
module AuthorizationHandlersV1 {
  import opened Basics
  import opened TokenKeys
  import opened PlatformModel
  import opened AuthorizationWriter
  import opened TokenGenStore
  import opened EntryWrites
  import opened PurposeScan
  import KeySpace = KeySpaceV1

  // ---- deletions by filter ----

  lemma PartlyDeletedTwice(before: Tokens, mid: Tokens, now: Tokens, f: TokenPK -> bool, g: TokenPK -> bool,
                           h: TokenPK -> bool)
    requires PartlyDeleted(before, mid, f) && PartlyDeleted(mid, now, g)
    requires forall pk: TokenPK :: h(pk) <==> f(pk) || g(pk)
    ensures PartlyDeleted(before, now, h)
    ensures Kept(Kept(before, f), g) == Kept(before, h)
  {
  }

  function HasPrefix(f: KeyFilter): TokenPK -> bool {
    pk => Hits(f, pk)
  }

  function OfKid(clientId: Id, kid: Id): TokenPK -> bool {
    pk => HitsKid(clientId, kid, pk)
  }

  function OfClient(clientId: Id): TokenPK -> bool {
    pk => HitsClient(clientId, pk)
  }

  function WithPurpose(clientId: Id, purposeId: Id): TokenPK -> bool {
    pk => OfPurpose(pk, clientId, purposeId)
  }

  /** Two scans by prefix, one per kind of key. */
  method DeleteByPrefixes(t: Tables, partials: KeyFilter, completes: KeyFilter, paging: Paging, paging': Paging,
                          ghost doomed: TokenPK -> bool)
    returns (o: Outcome)
    requires forall pk: TokenPK :: doomed(pk) <==> Hits(partials, pk) || Hits(completes, pk)
    modifies t
    ensures !o.Threw? && t.platform == old(t.platform) && PartlyDeleted(old(t.tokens), t.tokens, doomed)
    ensures o.Done? ==> t.tokens == Kept(old(t.tokens), doomed)
  {
    ghost var before := t.tokens;
    o := t.DeleteAll(HasPrefix(partials), paging);
    ghost var mid := t.tokens;
    PartlyDeletedTwice(before, mid, mid, HasPrefix(partials), HasPrefix(completes), doomed);
    if !o.Done? { return; }
    o := t.DeleteAll(HasPrefix(completes), paging');
    PartlyDeletedTwice(before, mid, t.tokens, HasPrefix(partials), HasPrefix(completes), doomed);
  }

  // ---- complete entries back to partial ones ----

  function PartialOf(e: Entry): Entry {
    PartialEntry(e.clientKind, e.publicKey, e.consumerId)
  }

  /** One key of a half-done conversion. */
  ghost predicate ConvertingAt(before: Tokens, now: Tokens, c: Id, p: Id, pk: TokenPK) {
    if OfPurpose(pk, c, p) then
      || Lookup(now, pk) == Lookup(before, pk)
      || (pk !in now && pk in before && Lookup(now, ClientKid(c, pk.kid)) == Some(PartialOf(before[pk])))
    else if pk == ClientKid(c, pk.kid) && ClientKidPurpose(c, pk.kid, p) in before then
      || Lookup(now, pk) == Lookup(before, pk)
      || Lookup(now, pk) == Some(PartialOf(before[ClientKidPurpose(c, pk.kid, p)]))
    else Lookup(now, pk) == Lookup(before, pk)
  }

  ghost predicate Converting(before: Tokens, now: Tokens, c: Id, p: Id) {
    forall pk: TokenPK :: ConvertingAt(before, now, c, p, pk)
  }

  /** The table after the conversion, key by key. */
  lemma ConvertAt(tokens: Tokens, c: Id, p: Id, pk: TokenPK)
    ensures Lookup(ConvertPurpose(tokens, c, p), pk) ==
            if OfPurpose(pk, c, p) then None
            else if pk == ClientKid(c, pk.kid) && ClientKidPurpose(c, pk.kid, p) in tokens then
              Some(PartialOf(tokens[ClientKidPurpose(c, pk.kid, p)]))
            else Lookup(tokens, pk)
  {
  }

  lemma ConvertsAgain(before: Tokens, now: Tokens, c: Id, p: Id)
    requires Converting(before, now, c, p)
    ensures ConvertPurpose(now, c, p) == ConvertPurpose(before, c, p)
  {
    var x, y := ConvertPurpose(now, c, p), ConvertPurpose(before, c, p);
    forall pk: TokenPK ensures Lookup(x, pk) == Lookup(y, pk) {
      ConvertAt(before, c, p, pk);
      ConvertAt(now, c, p, pk);
      assert ConvertingAt(before, now, c, p, pk);
      assert ConvertingAt(before, now, c, p, ClientKidPurpose(c, pk.kid, p));
    }
    LookupsDecide(x, y);
  }

  lemma ConvertOne(before: Tokens, now: Tokens, c: Id, p: Id, pk: TokenPK)
    requires Converting(before, now, c, p) && OfPurpose(pk, c, p) && pk in before
    ensures var put := now[ClientKid(c, pk.kid) := PartialOf(before[pk])];
            Converting(before, put, c, p) && Converting(before, put - {pk}, c, p)
  {
    var put := now[ClientKid(c, pk.kid) := PartialOf(before[pk])];
    forall x: TokenPK ensures ConvertingAt(before, put, c, p, x) && ConvertingAt(before, put - {pk}, c, p, x) {
      assert ConvertingAt(before, now, c, p, x);
    }
  }

  lemma AllConverted(before: Tokens, now: Tokens, c: Id, p: Id)
    requires Converting(before, now, c, p) && forall pk <- now :: !OfPurpose(pk, c, p)
    ensures now == ConvertPurpose(before, c, p)
  {
    ConvertsAgain(before, now, c, p);
    forall pk: TokenPK ensures Lookup(now, pk) == Lookup(ConvertPurpose(now, c, p), pk) {
      ConvertAt(now, c, p, pk);
    }
    LookupsDecide(now, ConvertPurpose(now, c, p));
  }

  method ConvertPage(t: Tables, c: Id, p: Id, page: Tokens, ghost before: Tokens) returns (o: Outcome)
    requires Converting(before, t.tokens, c, p)
    requires forall pk <- page :: OfPurpose(pk, c, p) && pk in before && page[pk] == before[pk]
    modifies t
    ensures !o.Threw? && t.platform == old(t.platform) && Converting(before, t.tokens, c, p)
    ensures forall pk <- t.tokens | OfPurpose(pk, c, p) :: pk in old(t.tokens)
    ensures o.Done? ==> t.tokens.Keys !! page.Keys
  {
    var pending := page.Keys;
    while pending != {}
      invariant pending <= page.Keys && t.platform == old(t.platform) && Converting(before, t.tokens, c, p)
      invariant forall pk <- t.tokens | OfPurpose(pk, c, p) :: pk in old(t.tokens)
      invariant t.tokens.Keys !! page.Keys - pending
    {
      var pk :| pk in pending;
      ConvertOne(before, t.tokens, c, p, pk);
      :- t.PutToken(ClientKid(c, pk.kid), PartialOf(page[pk]));
      :- t.DeleteToken(pk);
      pending := pending - {pk};
    }
    return Done;
  }

  /** `convertEntriesToClientKidInTokenGenerationStates` */
  method ConvertAll(t: Tables, c: Id, p: Id, paging: Paging) returns (o: Outcome)
    modifies t
    ensures !o.Threw? && t.platform == old(t.platform) && Converting(old(t.tokens), t.tokens, c, p)
    ensures o.Done? ==> t.tokens == ConvertPurpose(old(t.tokens), c, p)
  {
    ghost var before := t.tokens;
    var n := 0;
    while n <= paging.last
      invariant n <= paging.last + 1 && t.platform == old(t.platform) && Converting(before, t.tokens, c, p)
      invariant forall pk <- t.tokens | OfPurpose(pk, c, p) :: paging.Index(pk) >= n
    {
      var page := map pk | pk in t.tokens && OfPurpose(pk, c, p) && paging.Index(pk) == n :: t.tokens[pk];
      forall pk | pk in page ensures pk in before && page[pk] == before[pk] {
        assert ConvertingAt(before, t.tokens, c, p, pk);
      }
      :- ConvertPage(t, c, p, page, before);
      n := n + 1;
    }
    AllConverted(before, t.tokens, c, p);
    return Done;
  }

  // ---- messages ----

  predicate HasData(event: EventV1) {
    match event
    case KeysAdded(_, keys) => keys != []
    case ClientPurposeAdded(_, purposeId) => purposeId != ""
    case _ => true
  }

  function ClientOf(event: EventV1): Id {
    match event
    case ClientAdded(client) => client.id
    case OtherV1 => ""
    case _ => event.clientId
  }

  predicate ProceedsV1(row: Option<ClientRow>, event: EventV1, version: nat) {
    match event
    case ClientAdded(_) => !IsStale(row, version)
    case ClientDeleted(_) => true
    case OtherV1 => false
    case _ => row.Some? && !IsStale(row, version)
  }

  function RowAfter(row: Option<ClientRow>, event: EventV1, version: nat): Option<ClientRow>
    requires ProceedsV1(row, event, version)
  {
    match event
    case ClientAdded(client) => Some(ClientRow(client.kind, client.consumerId, client.purposes, version))
    case ClientPurposeAdded(_, p) =>
      Some(row.value.(purposesIds := Deduplicated(row.value.purposesIds, p), version := version))
    case ClientPurposeRemoved(_, p) =>
      Some(row.value.(purposesIds := Without(row.value.purposesIds, p), version := version))
    case ClientDeleted(_) => None
    case _ => Some(row.value.(version := version))
  }

  function SetRow(pf: Platform, id: Id, row: Option<ClientRow>): Platform {
    pf.(clients := if row.Some? then pf.clients[id := row.value] else pf.clients - {id})
  }

  /** What the message means for the entries, given the client row once written. */
  ghost function TokensAfter(tokens: Tokens, pf: Platform, row: Option<ClientRow>, event: EventV1): Tokens
    requires HasData(event) && (row.Some? || event.ClientAdded? || event.ClientDeleted? || event.OtherV1?)
  {
    match event
    case KeysAdded(c, keys) =>
      if row.value.kind.Consumer? && row.value.purposesIds != [] then
        tokens + EntriesOfKey(c, keys[0].kid, keys[0].encodedPem, row.value.purposesIds, pf)
      else
        tokens[ClientKid(c, keys[0].kid) :=
          PartialEntry(row.value.kind, keys[0].encodedPem, Some(row.value.consumerId))]
    case KeyDeleted(c, kid) => Kept(tokens, OfKid(c, kid))
    case ClientPurposeAdded(c, p) => AddPurpose(tokens, c, p, |row.value.purposesIds| == 1, pf)
    case ClientPurposeRemoved(c, p) =>
      if row.value.purposesIds != [] then Kept(tokens, WithPurpose(c, p)) else ConvertPurpose(tokens, c, p)
    case ClientDeleted(c) => Kept(tokens, OfClient(c))
    case ClientAdded(_) => tokens
    case OtherV1 => tokens
  }

  lemma HandleInParts(s: Store, event: EventV1, version: nat)
    ensures var row := Lookup(s.platform.clients, ClientOf(event));
            HandleV1(s, event, version) ==
            if !HasData(event) then Failed
            else if !ProceedsV1(row, event, version) then Ok(s)
            else
              var row' := RowAfter(row, event, version);
              Ok(Store(SetRow(s.platform, ClientOf(event), row'), TokensAfter(s.tokens, s.platform, row', event)))
  {
    match event
    case KeyDeleted(c, kid) => assert DropKidV1(s.tokens, c, kid) == Kept(s.tokens, OfKid(c, kid));
    case ClientPurposeRemoved(c, p) => assert DropPurpose(s.tokens, c, p) == Kept(s.tokens, WithPurpose(c, p));
    case ClientDeleted(c) => assert DropClientV1(s.tokens, c) == Kept(s.tokens, OfClient(c));
    case _ =>
  }

  lemma {:induction false} WithoutTwice(ids: seq<Id>, id: Id)
    ensures Without(Without(ids, id), id) == Without(ids, id)
  {
    if ids != [] {
      WithoutTwice(ids[1..], id);
      if ids[0] != id {
        var rest := Without(ids[1..], id);
        assert ([ids[0]] + rest)[1..] == rest;
      }
    }
  }

  /** A message finds the row it wrote itself as it found the row before. */
  lemma RowAgain(row: Option<ClientRow>, event: EventV1, version: nat)
    requires ProceedsV1(row, event, version)
    ensures var row' := RowAfter(row, event, version);
            ProceedsV1(row', event, version) && RowAfter(row', event, version) == row'
  {
    if event.ClientPurposeRemoved? { WithoutTwice(row.value.purposesIds, event.purposeId); }
  }

  /** The entries that the handler may leave behind. */
  ghost predicate HalfDone(before: Tokens, now: Tokens, row: Option<ClientRow>, event: EventV1)
    requires HasData(event) && (row.Some? || event.ClientAdded? || event.ClientDeleted? || event.OtherV1?)
  {
    match event
    case KeysAdded(c, keys) =>
      if row.value.kind.Consumer? && row.value.purposesIds != [] then
        AgreeOutside(before, now, OwnOfKey(c, keys[0].kid, row.value.purposesIds))
      else AgreeOutside(before, now, {ClientKid(c, keys[0].kid)})
    case KeyDeleted(c, kid) => PartlyDeleted(before, now, OfKid(c, kid))
    case ClientPurposeAdded(c, p) =>
      Half(Request(c, p, |row.value.purposesIds| == 1), before, now, KidsAgree(before, c))
    case ClientPurposeRemoved(c, p) =>
      if row.value.purposesIds != [] then PartlyDeleted(before, now, WithPurpose(c, p))
      else Converting(before, now, c, p)
    case ClientDeleted(c) => PartlyDeleted(before, now, OfClient(c))
    case ClientAdded(_) => now == before
    case OtherV1 => now == before
  }

  /** The message's meaning does not depend on the order in which entries are met. */
  ghost predicate OrderFree(tokens: Tokens, event: EventV1) {
    event.ClientPurposeAdded? ==> KidsAgree(tokens, event.clientId)
  }

  lemma SameAddPurpose(pf: Platform, pf': Platform, tokens: Tokens, c: Id, p: Id, only: bool)
    requires SameJoinedRows(pf, pf')
    ensures AddPurpose(tokens, c, p, only, pf') == AddPurpose(tokens, c, p, only, pf)
  {
    assert Retrieve(pf', p) == Retrieve(pf, p);
  }

  lemma KeysTokensAgain(before: Tokens, now: Tokens, pf: Platform, pf': Platform, row: Option<ClientRow>, c: Id,
                        keys: seq<Key>)
    requires keys != [] && row.Some? && SameJoinedRows(pf, pf') && HalfDone(before, now, row, KeysAdded(c, keys))
    ensures TokensAfter(now, pf', row, KeysAdded(c, keys)) == TokensAfter(before, pf, row, KeysAdded(c, keys))
  {
    var kid, pem := keys[0].kid, keys[0].encodedPem;
    if row.value.kind.Consumer? && row.value.purposesIds != [] {
      SameEntriesOfKey(pf, pf', c, kid, pem, row.value.purposesIds);
      KeyTokensAgain(before, now, pf, c, kid, pem, row.value.purposesIds);
    } else {
      SamePut(before, now, ClientKid(c, kid), PartialEntry(row.value.kind, pem, Some(row.value.consumerId)));
    }
  }

  lemma TokensAgain(before: Tokens, now: Tokens, pf: Platform, pf': Platform, row: Option<ClientRow>, event: EventV1)
    requires HasData(event) && (row.Some? || event.ClientAdded? || event.ClientDeleted? || event.OtherV1?)
    requires SameJoinedRows(pf, pf') && HalfDone(before, now, row, event) && OrderFree(before, event)
    ensures TokensAfter(now, pf', row, event) == TokensAfter(before, pf, row, event)
  {
    match event
    case KeysAdded(c, keys) => KeysTokensAgain(before, now, pf, pf', row, c, keys);
    case KeyDeleted(c, kid) => DeletingResumes(before, now, OfKid(c, kid));
    case ClientPurposeAdded(c, p) =>
      var q := Request(c, p, |row.value.purposesIds| == 1);
      AddsAgain(q, before, now, true, pf);
      SameAddPurpose(pf, pf', now, c, p, q.only);
    case ClientPurposeRemoved(c, p) =>
      if row.value.purposesIds != [] { DeletingResumes(before, now, WithPurpose(c, p)); }
      else { ConvertsAgain(before, now, c, p); }
    case ClientDeleted(c) => DeletingResumes(before, now, OfClient(c));
    case ClientAdded(_) =>
    case OtherV1 =>
  }

  /** The entries of a message, once the client row is written. */
  method WriteEntries(t: Tables, row: Option<ClientRow>, event: EventV1, paging: Paging, paging': Paging)
    returns (o: Outcome)
    requires HasData(event) && (row.Some? || event.ClientAdded? || event.ClientDeleted? || event.OtherV1?)
    modifies t
    ensures !o.Threw? && t.platform == old(t.platform) && HalfDone(old(t.tokens), t.tokens, row, event)
    ensures o.Done? && OrderFree(old(t.tokens), event) ==>
              t.tokens == TokensAfter(old(t.tokens), t.platform, row, event)
  {
    match event
    case KeysAdded(c, keys) =>
      var kid, pem := keys[0].kid, keys[0].encodedPem;
      if row.value.kind.Consumer? && row.value.purposesIds != [] {
        o := AddKey(t, c, kid, pem, Some(row.value.consumerId), row.value.purposesIds);
      } else {
        o := t.PutToken(ClientKid(c, kid), PartialEntry(row.value.kind, pem, Some(row.value.consumerId)));
      }
    case KeyDeleted(c, kid) =>
      o := DeleteByPrefixes(t, KidPrefix(CLIENT_KID, c, kid), KidPrefix(CLIENT_KID_PURPOSE, c, kid), paging, paging',
        OfKid(c, kid));
    case ClientPurposeAdded(c, p) =>
      o := AddToScanned(t, Request(c, p, |row.value.purposesIds| == 1), paging);
    case ClientPurposeRemoved(c, p) =>
      if row.value.purposesIds != [] {
        o := t.DeleteAll(WithPurpose(c, p), paging);
      } else {
        o := ConvertAll(t, c, p, paging);
      }
    case ClientDeleted(c) =>
      o := DeleteByPrefixes(t, ClientPrefix(CLIENT_KID, c), ClientPrefix(CLIENT_KID_PURPOSE, c), paging, paging',
        OfClient(c));
    case ClientAdded(_) => o := Done;
    case OtherV1 => o := Done;
  }

  method HandleMessageV1(t: Tables, event: EventV1, version: nat, paging: Paging, paging': Paging) returns (o: Outcome)
    modifies t
    ensures o.Done? && OrderFree(old(t.tokens), event) ==> HandleV1(old(t.Now()), event, version) == Ok(t.Now())
    ensures o.Threw? ==> HandleV1(old(t.Now()), event, version).Failed? && t.Now() == old(t.Now())
    ensures OrderFree(old(t.tokens), event) ==>
              OrderFree(t.tokens, event) && HandleV1(t.Now(), event, version) == HandleV1(old(t.Now()), event, version)
  {
    ghost var s := t.Now();
    HandleInParts(s, event, version);
    if !HasData(event) { return Threw; }
    var row := Lookup(t.platform.clients, ClientOf(event));
    if !ProceedsV1(row, event, version) { return Done; }
    var row' := RowAfter(row, event, version);
    o := t.WritePlatform(SetRow(t.platform, ClientOf(event), row'));
    if !o.Done? { return; }
    o := WriteEntries(t, row', event, paging, paging');
    if OrderFree(s.tokens, event) {
      HandlesAgain(s, t.Now(), event, version);
      if event.ClientPurposeAdded? {
        HalfKeepsKids(Request(event.clientId, event.purposeId, |row'.value.purposesIds| == 1), s.tokens, t.tokens);
      }
    }
  }

  lemma HandlesAgain(s: Store, now: Store, event: EventV1, version: nat)
    requires var row := Lookup(s.platform.clients, ClientOf(event));
             && HasData(event) && ProceedsV1(row, event, version)
             && now.platform == SetRow(s.platform, ClientOf(event), RowAfter(row, event, version))
             && HalfDone(s.tokens, now.tokens, RowAfter(row, event, version), event)
    requires OrderFree(s.tokens, event)
    ensures HandleV1(now, event, version) == HandleV1(s, event, version)
    ensures var row' := RowAfter(Lookup(s.platform.clients, ClientOf(event)), event, version);
            TokensAfter(s.tokens, now.platform, row', event) == TokensAfter(s.tokens, s.platform, row', event)
  {
    var row := Lookup(s.platform.clients, ClientOf(event));
    var row' := RowAfter(row, event, version);
    RowAgain(row, event, version);
    TokensAgain(s.tokens, now.tokens, s.platform, now.platform, row', event);
    NothingDone(s.tokens, row', event);
    TokensAgain(s.tokens, s.tokens, s.platform, now.platform, row', event);
    HandleInParts(s, event, version);
    HandleInParts(now, event, version);
    assert SetRow(now.platform, ClientOf(event), row') == now.platform;
  }

  lemma NothingDone(tokens: Tokens, row: Option<ClientRow>, event: EventV1)
    requires HasData(event) && (row.Some? || event.ClientAdded? || event.ClientDeleted? || event.OtherV1?)
    ensures HalfDone(tokens, tokens, row, event)
  {
    if event.ClientPurposeAdded? {
      var q := Request(event.clientId, event.purposeId, |row.value.purposesIds| == 1);
      NotYetHalf(q, tokens, KidsAgree(tokens, event.clientId));
    }
  }

  /** A message is delivered again after every crash, to a new process over the same tables; `writes` are the
      writes that each process makes before it dies. The tables end as after one uninterrupted run. */
  method DeliverV1(t: Tables, event: EventV1, version: nat, writes: seq<nat>, paging: Paging, paging': Paging)
    returns (o: Outcome)
    modifies t
    ensures OrderFree(old(t.tokens), event) && o.Done? ==> HandleV1(old(t.Now()), event, version) == Ok(t.Now())
    ensures OrderFree(old(t.tokens), event) ==>
              HandleV1(t.Now(), event, version) == HandleV1(old(t.Now()), event, version)
  {
    o := Crashed;
    var i := 0;
    while i < |writes| && o.Crashed?
      invariant i <= |writes|
      invariant OrderFree(old(t.tokens), event) ==>
                  && OrderFree(t.tokens, event)
                  && HandleV1(t.Now(), event, version) == HandleV1(old(t.Now()), event, version)
                  && (o.Done? ==> HandleV1(old(t.Now()), event, version) == Ok(t.Now()))
    {
      t.Restart(writes[i]);
      o := HandleMessageV1(t, event, version, paging, paging');
      i := i + 1;
    }
  }

  /** In every state that V1 messages reach, equal kids of a client have equal public keys. */
  lemma ReachedStatesAreOrderFree(s: Store, c: Id, m: Option<KeySpace.Model>, version: nat, event: EventV1)
    requires KeySpace.Shaped(s, c, m, version) && KeySpace.Exact(s.tokens, c)
    requires event.ClientPurposeAdded? ==> event.clientId == c
    ensures OrderFree(s.tokens, event)
  {
    if event.ClientPurposeAdded? {
      forall x, y | x in s.tokens && y in s.tokens && Hits(ContainsText(c), x) && Hits(ContainsText(c), y)
        && x.kid == y.kid
        ensures s.tokens[x].publicKey == s.tokens[y].publicKey
      {
        assert x.clientId == c && y.clientId == c;
        assert m.Some? && KeySpace.EntryIs(s.tokens, c, m.value, x) && KeySpace.EntryIs(s.tokens, c, m.value, y);
      }
    }
  }
}
