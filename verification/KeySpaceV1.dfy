/**
 The key space of one client under V1 messages. Whatever the two tables go through, the client's entries are
 those of a simple client that remembers its keys and its purposes: one client/kid entry per key while it has no
 purpose, as a client of the API never has, and one complete entry per key and purpose otherwise. A client/kid
 entry names the client's consumer, or the consumer of the last purpose that the client has lost since.
 */
module KeySpaceV1 {
  import opened Basics
  import opened TokenKeys
  import opened PlatformModel
  import opened AuthorizationWriter

  /** The client that the messages describe. `holders` are the consumers that client/kid entries name. */
  datatype Model = Model(kind: ClientKind, consumerId: Id, keys: map<Id, string>, purposes: seq<Id>,
                         holders: map<Id, Option<Id>>)

  /** The consumer of a purpose, if it has a row. */
  function ConsumerAfter(pf: Platform, p: Id): Option<Id> {
    if p in pf.purposes then Some(pf.purposes[p].consumerId) else None
  }

  function WithKey(m: Model, kid: Id, pem: string): Model {
    m.(keys := m.keys[kid := pem], holders := m.holders[kid := Some(m.consumerId)])
  }

  function WithoutKey(m: Model, kid: Id): Model {
    m.(keys := m.keys - {kid}, holders := m.holders - {kid})
  }

  /** When the last purpose goes, every key keeps the consumer of that purpose. */
  function WithoutPurpose(m: Model, p: Id, pf: Platform): Model {
    var ids := Without(m.purposes, p);
    m.(purposes := ids,
       holders := if m.purposes != [] && ids == [] then map kid | kid in m.keys :: ConsumerAfter(pf, p) else m.holders)
  }

  function StepModel(m: Option<Model>, event: EventV1, pf: Platform): Option<Model> {
    match event
    case ClientAdded(client) => Some(Model(client.kind, client.consumerId, map[], client.purposes, map[]))
    case KeysAdded(_, keys) => if m.Some? && keys != [] then Some(WithKey(m.value, keys[0].kid, keys[0].encodedPem))
      else m
    case KeyDeleted(_, kid) => if m.Some? then Some(WithoutKey(m.value, kid)) else m
    case ClientPurposeAdded(_, p) =>
      if m.Some? then Some(m.value.(purposes := Deduplicated(m.value.purposes, p))) else m
    case ClientPurposeRemoved(_, p) => if m.Some? then Some(WithoutPurpose(m.value, p, pf)) else m
    case ClientDeleted(_) => None
    case OtherV1 => m
  }

  predicate Expected(m: Model, pk: TokenPK) {
    && pk.kid in m.keys
    && (if m.purposes == [] then pk.ClientKid? else pk.ClientKidPurpose? && pk.purposeId in m.purposes)
  }

  /** One key of client `c`: present exactly when the model expects it, with the model's public key. */
  predicate EntryIs(tokens: Tokens, c: Id, m: Model, pk: TokenPK) {
    pk.clientId == c ==>
      && (pk in tokens <==> Expected(m, pk))
      && (pk in tokens ==> tokens[pk].publicKey == m.keys[pk.kid])
      && (pk in tokens && pk.ClientKid? ==> IsPartial(tokens[pk], m.kind, m.keys[pk.kid], tokens[pk].consumerId))
      && (pk in tokens ==> tokens[pk].clientKind == m.kind)
  }

  /** Kind, public key and consumer, and nothing to join. */
  predicate IsPartial(e: Entry, kind: ClientKind, publicKey: string, consumerId: Option<Id>) {
    && e.clientKind == kind && e.publicKey == publicKey && e.consumerId == consumerId
    && e.consumerEservice == None && e.purposeState == None && e.purposeVersionId == None
    && e.agreementId == None && e.agreementState == None && e.producerId == None
    && e.descriptor == None && e.descriptorState == None && e.audience == None && e.lifespan == None
    && e.asyncExchange == None
  }

  /** What an entry of client `c` holds while the rows of purposes, agreements and descriptors stay. */
  predicate ContentIs(tokens: Tokens, c: Id, m: Model, pf: Platform, pk: TokenPK) {
    pk.clientId == c && pk in tokens ==>
      && pk.kid in m.keys && pk.kid in m.holders
      && if pk.ClientKid? then IsPartial(tokens[pk], m.kind, m.keys[pk.kid], m.holders[pk.kid])
         else tokens[pk] == Join(m.keys[pk.kid], Retrieve(pf, pk.purposeId))
  }

  /** Every key has a holder. */
  ghost predicate ContentsAre(tokens: Tokens, c: Id, m: Model, pf: Platform) {
    m.holders.Keys == m.keys.Keys && forall pk: TokenPK :: ContentIs(tokens, c, m, pf, pk)
  }

  /** The entries of client `c` are exactly those of the model. */
  ghost predicate EntriesAre(tokens: Tokens, c: Id, m: Model) {
    forall pk: TokenPK :: EntryIs(tokens, c, m, pk)
  }

  predicate RowIs(pf: Platform, c: Id, m: Model, version: nat) {
    && c in pf.clients && pf.clients[c].kind == m.kind && pf.clients[c].consumerId == m.consumerId
    && pf.clients[c].purposesIds == m.purposes && pf.clients[c].version == version
  }

  /** The row and the entries of client `c` are those of the model, and the row is at `version`. */
  ghost predicate Shaped(s: Store, c: Id, m: Option<Model>, version: nat) {
    match m
    case None => c !in s.platform.clients && forall pk <- s.tokens :: pk.clientId != c
    case Some(model) =>
      && RowIs(s.platform, c, model, version) && Distinct(model.purposes)
      && (model.kind.Api? ==> model.purposes == []) && EntriesAre(s.tokens, c, model)
  }

  // ---- ids that string filters keep apart ----

  datatype Universe = Universe(clients: set<Id>, kids: set<Id>, purposes: set<Id>)

  /** Ids as the platform makes them: no separator, no client id inside another id or a key's leading word,
      no kid that begins another one. Ids of fixed length and kids of fixed length meet this unless a
      client id occurs inside a kid or a purpose id. */
  ghost predicate Spaced(u: Universe) {
    && (forall x <- u.clients + u.kids + u.purposes :: Plain(x))
    && (forall c <- u.clients :: !Contains(CLIENT_KID, c) && !Contains(CLIENT_KID_PURPOSE, c))
    && (forall c <- u.clients, d <- u.clients | Contains(d, c) :: c == d)
    && (forall c <- u.clients, x <- u.kids + u.purposes :: !Contains(x, c))
    && (forall k <- u.kids, l <- u.kids | k <= l :: k == l)
  }

  predicate KeyWithin(pk: TokenPK, u: Universe) {
    pk.clientId in u.clients && pk.kid in u.kids && (pk.ClientKidPurpose? ==> pk.purposeId in u.purposes)
  }

  ghost predicate Within(tokens: Tokens, u: Universe) {
    forall pk <- tokens :: KeyWithin(pk, u)
  }

  lemma FiltersAreExact(tokens: Tokens, u: Universe, c: Id, pk: TokenPK)
    requires Spaced(u) && Within(tokens, u) && c in u.clients && pk in tokens
    ensures Hits(ContainsText(c), pk) <==> pk.clientId == c
    ensures HitsClient(c, pk) <==> pk.clientId == c
    ensures forall kid <- u.kids :: HitsKid(c, kid, pk) <==> pk.clientId == c && pk.kid == kid
  {
    assert Apart(tokens.Keys, c);
    ApartIsExact(tokens.Keys, c, pk);
    forall kid | kid in u.kids { KidHits(c, kid, pk); }
  }

  // ---- messages about the client ----

  predicate About(event: EventV1, c: Id) {
    match event
    case ClientAdded(client) => client.id == c
    case OtherV1 => false
    case _ => event.clientId == c
  }

  predicate EventWithin(event: EventV1, u: Universe) {
    match event
    case ClientAdded(client) => client.id in u.clients
    case KeysAdded(c, keys) => c in u.clients && forall k <- keys :: k.kid in u.kids
    case KeyDeleted(c, kid) => c in u.clients && kid in u.kids
    case ClientPurposeAdded(c, p) => c in u.clients && p in u.purposes
    case ClientPurposeRemoved(c, _) => c in u.clients
    case ClientDeleted(c) => c in u.clients
    case OtherV1 => true
  }

  /** A client is created once, without keys and purposes; only consumer clients get any; messages carry what their
      handlers need. */
  predicate Sensible(m: Option<Model>, event: EventV1) {
    match event
    case ClientAdded(client) => m.None? && client.purposes == []
    case KeysAdded(_, keys) => keys != []
    case ClientPurposeAdded(_, p) => p != "" && (m.Some? ==> m.value.kind.Consumer?)
    case _ => true
  }

  lemma {:induction false} WithoutKeepsOthers(ids: seq<Id>, id: Id)
    ensures forall x :: x in Without(ids, id) <==> x in ids && x != id
    ensures Distinct(ids) ==> Distinct(Without(ids, id))
  {
    if ids != [] {
      WithoutKeepsOthers(ids[1..], id);
      if Distinct(ids) {
        assert forall i | 0 <= i < |ids| - 1 :: ids[1..][i] == ids[i + 1];
        assert Distinct(ids[1..]) && ids[0] !in ids[1..];
      }
    }
  }

  /** The string filters on client `c` select exactly its own entries. */
  ghost predicate Exact(tokens: Tokens, c: Id) {
    forall pk <- tokens :: Hits(ContainsText(c), pk) <==> pk.clientId == c
  }

  /** The table after ClientPurposeAdded, key by key. */
  lemma AddPurposeAt(tokens: Tokens, c: Id, p: Id, only: bool, pf: Platform, pk: TokenPK)
    requires Exact(tokens, c)
    ensures var tokens' := AddPurpose(tokens, c, p, only, pf);
            var added := pk == ClientKidPurpose(c, pk.kid, p) && pk.kid in ScannedKids(tokens, c);
            && (pk in tokens' <==> added || (pk in tokens && !(only && pk.clientId == c && pk.ClientKid?)))
            && (added ==> tokens'[pk] == Join(PemOf(tokens, c, pk.kid), Retrieve(pf, p)))
            && (pk in tokens' && !added ==> tokens'[pk] == tokens[pk])
  {
  }

  /** A key of the client under which a kid of the model is stored. */
  function SomeKey(m: Model, c: Id, kid: Id): TokenPK {
    if m.purposes == [] then ClientKid(c, kid) else ClientKidPurpose(c, kid, m.purposes[0])
  }

  lemma ScannedAreKeys(tokens: Tokens, c: Id, m: Model)
    requires Exact(tokens, c) && EntriesAre(tokens, c, m)
    ensures ScannedKids(tokens, c) == m.keys.Keys
    ensures forall kid <- m.keys :: PemOf(tokens, c, kid) == m.keys[kid]
  {
    forall kid | kid in m.keys ensures kid in ScannedKids(tokens, c) {
      var pk := SomeKey(m, c, kid);
      assert EntryIs(tokens, c, m, pk);
      assert pk in tokens && Hits(ContainsText(c), pk);
    }
    forall kid | kid in ScannedKids(tokens, c) ensures kid in m.keys && PemOf(tokens, c, kid) == m.keys[kid] {
      var pk :| pk in tokens && Hits(ContainsText(c), pk) && pk.kid == kid;
      assert EntryIs(tokens, c, m, pk);
      forall q | q in tokens && Hits(ContainsText(c), q) && q.kid == kid ensures tokens[q].publicKey == m.keys[kid] {
        assert EntryIs(tokens, c, m, q);
      }
    }
  }

  lemma AddKeeps(tokens: Tokens, c: Id, m: Model, p: Id, pf: Platform)
    requires Exact(tokens, c) && EntriesAre(tokens, c, m) && m.kind.Consumer?
    ensures var ids := Deduplicated(m.purposes, p);
            EntriesAre(AddPurpose(tokens, c, p, |ids| == 1, pf), c, m.(purposes := ids))
    ensures Distinct(m.purposes) ==> Distinct(Deduplicated(m.purposes, p))
  {
    var ids := Deduplicated(m.purposes, p);
    var tokens' := AddPurpose(tokens, c, p, |ids| == 1, pf);
    ScannedAreKeys(tokens, c, m);
    forall pk: TokenPK ensures EntryIs(tokens', c, m.(purposes := ids), pk) {
      assert EntryIs(tokens, c, m, pk);
      AddedKey(tokens, tokens', c, m, p, pf, pk);
    }
  }

  lemma AddedKey(tokens: Tokens, tokens': Tokens, c: Id, m: Model, p: Id, pf: Platform, pk: TokenPK)
    requires Exact(tokens, c) && EntryIs(tokens, c, m, pk) && m.kind.Consumer?
    requires ScannedKids(tokens, c) == m.keys.Keys && forall kid <- m.keys :: PemOf(tokens, c, kid) == m.keys[kid]
    requires tokens' == AddPurpose(tokens, c, p, |Deduplicated(m.purposes, p)| == 1, pf)
    ensures EntryIs(tokens', c, m.(purposes := Deduplicated(m.purposes, p)), pk)
  {
    var ids := Deduplicated(m.purposes, p);
    AddPurposeAt(tokens, c, p, |ids| == 1, pf, pk);
    assert forall x :: x in ids <==> x in m.purposes || x == p;
    assert |ids| != 1 ==> m.purposes != [];
    assert |ids| == 1 && m.purposes != [] ==> m.purposes == [p];
  }

  /** The table after ClientPurposeRemoved of the last purpose, key by key. */
  lemma ConvertAt(tokens: Tokens, c: Id, p: Id, pk: TokenPK)
    ensures var tokens' := ConvertPurpose(tokens, c, p);
            var source := ClientKidPurpose(c, pk.kid, p);
            var made := pk == ClientKid(c, pk.kid) && source in tokens;
            && (pk in tokens' <==> made || (pk in tokens && !OfPurpose(pk, c, p)))
            && (made ==>
                 tokens'[pk] == PartialEntry(tokens[source].clientKind, tokens[source].publicKey,
                                              tokens[source].consumerId))
            && (pk in tokens' && !made ==> tokens'[pk] == tokens[pk])
  {
    var source := ClientKidPurpose(c, pk.kid, p);
    if source in tokens { assert OfPurpose(source, c, p); }
  }

  lemma RemoveKeeps(tokens: Tokens, c: Id, m: Model, p: Id, pf: Platform)
    requires EntriesAre(tokens, c, m)
    ensures var ids := Without(m.purposes, p);
            EntriesAre(if ids != [] then DropPurpose(tokens, c, p) else ConvertPurpose(tokens, c, p), c,
                       WithoutPurpose(m, p, pf))
    ensures Distinct(m.purposes) ==> Distinct(Without(m.purposes, p))
  {
    WithoutKeepsOthers(m.purposes, p);
    var ids := Without(m.purposes, p);
    var m' := WithoutPurpose(m, p, pf);
    if ids == [] {
      forall pk: TokenPK ensures EntryIs(ConvertPurpose(tokens, c, p), c, m', pk) {
        ConvertAt(tokens, c, p, pk);
        assert EntryIs(tokens, c, m, pk) && EntryIs(tokens, c, m, ClientKidPurpose(c, pk.kid, p));
        assert m.purposes != [] ==> m.purposes[0] == p;
      }
    } else {
      forall pk: TokenPK ensures EntryIs(DropPurpose(tokens, c, p), c, m', pk) {
        assert EntryIs(tokens, c, m, pk);
        assert ids[0] in m.purposes;
      }
    }
  }

  // ---- one message ----

  lemma KeyDeletedKeeps(tokens: Tokens, c: Id, m: Model, kid: Id)
    requires forall pk <- tokens :: HitsKid(c, kid, pk) <==> pk.clientId == c && pk.kid == kid
    requires EntriesAre(tokens, c, m)
    ensures EntriesAre(DropKidV1(tokens, c, kid), c, WithoutKey(m, kid))
  {
    forall pk: TokenPK ensures EntryIs(DropKidV1(tokens, c, kid), c, WithoutKey(m, kid), pk) {
      assert EntryIs(tokens, c, m, pk);
    }
  }

  lemma CreatedIsShaped(tokens: Tokens, c: Id, kind: ClientKind, consumerId: Id, purposes: seq<Id>)
    requires forall pk <- tokens :: pk.clientId != c
    ensures EntriesAre(tokens, c, Model(kind, consumerId, map[], purposes, map[]))
  {
    forall pk: TokenPK ensures EntryIs(tokens, c, Model(kind, consumerId, map[], purposes, map[]), pk) {}
  }

  lemma AboutKeeps(s: Store, c: Id, m: Option<Model>, event: EventV1, before: nat, version: nat, u: Universe)
    requires Spaced(u) && Within(s.tokens, u) && EventWithin(event, u) && c in u.clients
    requires About(event, c) && Sensible(m, event) && Shaped(s, c, m, before) && before <= version
    ensures HandleV1(s, event, version).Ok?
    ensures Shaped(HandleV1(s, event, version).value, c, StepModel(m, event, s.platform), version)
  {
    forall pk | pk in s.tokens { FiltersAreExact(s.tokens, u, c, pk); }
    var s' := HandleV1(s, event, version).value;
    if m.Some? {
      match event
      case ClientAdded(_) =>
      case KeysAdded(_, keys) => KeysAddedKeeps(s, s', c, m.value, keys, before, version);
      case KeyDeleted(_, kid) => KeyDeletedKeeps(s.tokens, c, m.value, kid);
      case ClientPurposeAdded(_, p) => AddKeeps(s.tokens, c, m.value, p, s.platform);
      case ClientPurposeRemoved(_, p) => RemoveKeeps(s.tokens, c, m.value, p, s.platform);
      case ClientDeleted(_) =>
      case OtherV1 =>
    } else if event.ClientAdded? {
      CreatedIsShaped(s.tokens, c, event.client.kind, event.client.consumerId, event.client.purposes);
    }
  }

  lemma KeysAddedKeeps(s: Store, s': Store, c: Id, m: Model, keys: seq<Key>, before: nat, version: nat)
    requires keys != [] && RowIs(s.platform, c, m, before) && before <= version && (m.kind.Api? ==> m.purposes == [])
    requires EntriesAre(s.tokens, c, m)
    requires HandleV1(s, KeysAdded(c, keys), version) == Ok(s')
    ensures EntriesAre(s'.tokens, c, WithKey(m, keys[0].kid, keys[0].encodedPem))
  {
    var m' := WithKey(m, keys[0].kid, keys[0].encodedPem);
    forall pk: TokenPK ensures EntryIs(s'.tokens, c, m', pk) {
      assert EntryIs(s.tokens, c, m, pk);
    }
  }

  // ---- what the entries hold ----

  lemma KeysAddedContents(s: Store, s': Store, c: Id, m: Model, keys: seq<Key>, before: nat, version: nat)
    requires keys != [] && RowIs(s.platform, c, m, before) && before <= version
               && ContentsAre(s.tokens, c, m, s.platform)
    requires (m.kind.Api? ==> m.purposes == []) && EntriesAre(s.tokens, c, m)
    requires HandleV1(s, KeysAdded(c, keys), version) == Ok(s')
    ensures ContentsAre(s'.tokens, c, WithKey(m, keys[0].kid, keys[0].encodedPem), s.platform)
  {
    var m' := WithKey(m, keys[0].kid, keys[0].encodedPem);
    forall pk: TokenPK ensures ContentIs(s'.tokens, c, m', s.platform, pk) {
      assert ContentIs(s.tokens, c, m, s.platform, pk) && EntryIs(s.tokens, c, m, pk);
    }
  }

  lemma KeyDeletedContents(tokens: Tokens, c: Id, m: Model, kid: Id, pf: Platform)
    requires forall pk <- tokens :: HitsKid(c, kid, pk) <==> pk.clientId == c && pk.kid == kid
    requires ContentsAre(tokens, c, m, pf)
    ensures ContentsAre(DropKidV1(tokens, c, kid), c, WithoutKey(m, kid), pf)
  {
    forall pk: TokenPK ensures ContentIs(DropKidV1(tokens, c, kid), c, WithoutKey(m, kid), pf, pk) {
      assert ContentIs(tokens, c, m, pf, pk);
    }
  }

  lemma AddedContents(tokens: Tokens, c: Id, m: Model, p: Id, pf: Platform)
    requires Exact(tokens, c) && EntriesAre(tokens, c, m) && m.kind.Consumer? && ContentsAre(tokens, c, m, pf)
    ensures var ids := Deduplicated(m.purposes, p);
            ContentsAre(AddPurpose(tokens, c, p, |ids| == 1, pf), c, m.(purposes := ids), pf)
  {
    var ids := Deduplicated(m.purposes, p);
    var tokens' := AddPurpose(tokens, c, p, |ids| == 1, pf);
    ScannedAreKeys(tokens, c, m);
    forall pk: TokenPK ensures ContentIs(tokens', c, m.(purposes := ids), pf, pk) {
      AddPurposeAt(tokens, c, p, |ids| == 1, pf, pk);
      assert ContentIs(tokens, c, m, pf, pk);
    }
  }

  lemma RemovedContents(tokens: Tokens, c: Id, m: Model, p: Id, pf: Platform)
    requires EntriesAre(tokens, c, m) && m.kind.Consumer? && ContentsAre(tokens, c, m, pf)
    ensures ContentsAre(if Without(m.purposes, p) != [] then DropPurpose(tokens, c, p)
              else ConvertPurpose(tokens, c, p), c,
                        WithoutPurpose(m, p, pf), pf)
  {
    WithoutKeepsOthers(m.purposes, p);
    var ids, m' := Without(m.purposes, p), WithoutPurpose(m, p, pf);
    if ids == [] {
      forall pk: TokenPK ensures ContentIs(ConvertPurpose(tokens, c, p), c, m', pf, pk) {
        var source := ClientKidPurpose(c, pk.kid, p);
        ConvertAt(tokens, c, p, pk);
        assert ContentIs(tokens, c, m, pf, pk) && ContentIs(tokens, c, m, pf, source);
        assert EntryIs(tokens, c, m, pk) && EntryIs(tokens, c, m, source);
        assert m.purposes != [] ==> m.purposes[0] == p;
        if pk.kid in m.keys { JoinedConsumer(m.keys[pk.kid], pf, p); }
      }
    } else {
      forall pk: TokenPK ensures ContentIs(DropPurpose(tokens, c, p), c, m', pf, pk) {
        assert ContentIs(tokens, c, m, pf, pk);
      }
    }
  }

  /** Rows other than the client's own do not depend on authorization messages, so joins stay joins. */
  lemma SameRowsSameContents(tokens: Tokens, c: Id, m: Model, pf: Platform, pf': Platform)
    requires ContentsAre(tokens, c, m, pf) && SameJoinedRows(pf, pf')
    ensures ContentsAre(tokens, c, m, pf')
  {
    forall pk: TokenPK ensures ContentIs(tokens, c, m, pf', pk) { assert ContentIs(tokens, c, m, pf, pk); }
  }

  ghost predicate Filled(s: Store, c: Id, m: Option<Model>) {
    m.Some? ==> ContentsAre(s.tokens, c, m.value, s.platform)
  }

  lemma AboutFills(s: Store, c: Id, m: Model, event: EventV1, before: nat, version: nat, u: Universe)
    requires Spaced(u) && Within(s.tokens, u) && EventWithin(event, u) && c in u.clients
    requires About(event, c) && Sensible(Some(m), event) && Shaped(s, c, Some(m), before) && before <= version
    requires ContentsAre(s.tokens, c, m, s.platform) && HandleV1(s, event, version).Ok?
    ensures var m' := StepModel(Some(m), event, s.platform);
            m'.Some? ==> ContentsAre(HandleV1(s, event, version).value.tokens, c, m'.value, s.platform)
  {
    forall pk | pk in s.tokens { FiltersAreExact(s.tokens, u, c, pk); }
    match event
    case KeysAdded(_, keys) => KeysAddedContents(s, HandleV1(s, event, version).value, c, m, keys, before, version);
    case KeyDeleted(_, kid) => KeyDeletedContents(s.tokens, c, m, kid, s.platform);
    case ClientPurposeAdded(_, p) => AddedContents(s.tokens, c, m, p, s.platform);
    case ClientPurposeRemoved(_, p) =>
      if m.kind.Consumer? {
        RemovedContents(s.tokens, c, m, p, s.platform);
      } else {
        NothingRemoved(s.tokens, c, m, p, s.platform);
      }
    case _ =>
  }

  /** A client just created has no entry to fill. */
  lemma CreatedIsFilled(s: Store, c: Id, event: EventV1, version: nat)
    requires event.ClientAdded? && event.client.id == c && forall pk <- s.tokens :: pk.clientId != c
    requires HandleV1(s, event, version).Ok?
    ensures var s' := HandleV1(s, event, version).value; Filled(s', c, StepModel(None, event, s.platform))
  {
  }

  lemma StepFills(s: Store, c: Id, m: Option<Model>, event: EventV1, before: nat, version: nat, u: Universe)
    requires Spaced(u) && Within(s.tokens, u) && EventWithin(event, u) && c in u.clients
    requires About(event, c) && Sensible(m, event) && Shaped(s, c, m, before) && before <= version && Filled(s, c, m)
    requires HandleV1(s, event, version).Ok?
    ensures Filled(HandleV1(s, event, version).value, c, StepModel(m, event, s.platform))
  {
    var s', m' := HandleV1(s, event, version).value, StepModel(m, event, s.platform);
    SameRows(s, event, version);
    if m.Some? {
      AboutFills(s, c, m.value, event, before, version, u);
      if m'.Some? { SameRowsSameContents(s'.tokens, c, m'.value, s.platform, s'.platform); }
    } else if event.ClientAdded? {
      CreatedIsFilled(s, c, event, version);
    }
  }

  /** A client of the API has no purpose to lose. */
  lemma NothingRemoved(tokens: Tokens, c: Id, m: Model, p: Id, pf: Platform)
    requires EntriesAre(tokens, c, m) && m.purposes == [] && ContentsAre(tokens, c, m, pf)
    ensures ContentsAre(ConvertPurpose(tokens, c, p), c, WithoutPurpose(m, p, pf), pf)
  {
    forall pk: TokenPK ensures ContentIs(ConvertPurpose(tokens, c, p), c, WithoutPurpose(m, p, pf), pf, pk) {
      ConvertAt(tokens, c, p, pk);
      assert ContentIs(tokens, c, m, pf, pk) && EntryIs(tokens, c, m, ClientKidPurpose(c, pk.kid, p));
    }
  }

  /** A message about another client leaves the client's row and entries alone. */
  lemma OthersKeep(s: Store, c: Id, m: Option<Model>, event: EventV1, before: nat, version: nat, u: Universe)
    requires Spaced(u) && Within(s.tokens, u) && EventWithin(event, u)
    requires !About(event, c) && Shaped(s, c, m, before) && HandleV1(s, event, version).Ok?
    ensures Shaped(HandleV1(s, event, version).value, c, m, before)
    ensures Filled(s, c, m) ==> Filled(HandleV1(s, event, version).value, c, m)
  {
    var s' := HandleV1(s, event, version).value;
    forall pk: TokenPK | pk.clientId == c ensures Lookup(s'.tokens, pk) == Lookup(s.tokens, pk) {
      OthersUntouched(s, c, event, version, u, pk);
    }
    if m.Some? {
      forall pk: TokenPK ensures EntryIs(s'.tokens, c, m.value, pk) {
        assert EntryIs(s.tokens, c, m.value, pk);
      }
      if Filled(s, c, m) {
        forall pk: TokenPK ensures ContentIs(s'.tokens, c, m.value, s'.platform, pk) {
          assert ContentIs(s.tokens, c, m.value, s.platform, pk);
        }
      }
    } else {
      assert forall pk <- s'.tokens :: pk.clientId == c ==> Lookup(s.tokens, pk).Some?;
    }
  }

  lemma OthersUntouched(s: Store, c: Id, event: EventV1, version: nat, u: Universe, pk: TokenPK)
    requires Spaced(u) && Within(s.tokens, u) && EventWithin(event, u)
    requires !About(event, c) && HandleV1(s, event, version).Ok? && pk.clientId == c
    ensures Lookup(HandleV1(s, event, version).value.tokens, pk) == Lookup(s.tokens, pk)
  {
    if !event.OtherV1? && !event.ClientAdded? {
      forall k | k in s.tokens { FiltersAreExact(s.tokens, u, event.clientId, k); }
      if event.ClientPurposeAdded? && HandleV1(s, event, version).value != s {
        AddPurposeAt(s.tokens, event.clientId, event.purposeId,
                     |Deduplicated(s.platform.clients[event.clientId].purposesIds, event.purposeId)| == 1,
                     s.platform, pk);
      } else if event.ClientPurposeRemoved? {
        ConvertAt(s.tokens, event.clientId, event.purposeId, pk);
      }
    }
  }

  /** Every client's purposes come from the universe, so new keys do too. */
  ghost predicate RowsWithin(pf: Platform, u: Universe) {
    forall c <- pf.clients :: forall p <- pf.clients[c].purposesIds :: p in u.purposes
  }

  lemma StaysWithin(s: Store, event: EventV1, version: nat, u: Universe)
    requires Spaced(u) && Within(s.tokens, u) && RowsWithin(s.platform, u) && EventWithin(event, u)
    requires event.ClientAdded? ==> event.client.purposes == []
    requires HandleV1(s, event, version).Ok?
    ensures Within(HandleV1(s, event, version).value.tokens, u)
              && RowsWithin(HandleV1(s, event, version).value.platform, u)
  {
    var s' := HandleV1(s, event, version).value;
    match event
    case ClientPurposeRemoved(c, p) =>
      if c in s.platform.clients { WithoutKeepsOthers(s.platform.clients[c].purposesIds, p); }
    case _ =>
  }

  // ---- whole runs ----

  datatype Message = Message(event: EventV1, version: nat)

  /** A message whose handler throws changes nothing. */
  ghost function RunV1(s: Store, log: seq<Message>): Store {
    if log == [] then s
    else
      var before, last := RunV1(s, log[..|log| - 1]), log[|log| - 1];
      match HandleV1(before, last.event, last.version)
      case Ok(s') => s'
      case Failed => before
  }

  function ModelOf(log: seq<Message>, c: Id, pf: Platform): Option<Model> {
    if log == [] then None
    else
      var before, last := ModelOf(log[..|log| - 1], c, pf), log[|log| - 1];
      if About(last.event, c) then StepModel(before, last.event, pf) else before
  }

  function LastVersion(log: seq<Message>, c: Id): nat {
    if log == [] then 0
    else if About(log[|log| - 1].event, c) then log[|log| - 1].version
    else LastVersion(log[..|log| - 1], c)
  }

  /** Streams of any number of clients, interleaved; the messages of each come in the order of their versions. */
  ghost predicate SensibleLog(log: seq<Message>, u: Universe, pf: Platform) {
    && (forall m <- log :: EventWithin(m.event, u) && (m.event.ClientAdded? ==> m.event.client.purposes == []))
    && (forall i, c | 0 <= i < |log| && About(log[i].event, c) ::
          Sensible(ModelOf(log[..i], c, pf), log[i].event) && LastVersion(log[..i], c) <= log[i].version)
  }

  /** No client yet, over any rows of purposes, agreements and descriptors. */
  function Fresh(pf: Platform): Store {
    Store(pf.(clients := map[]), map[])
  }

  /** The consumer of a purpose is read off rows that authorization messages do not change. */
  lemma SameRowsSameModel(m: Option<Model>, event: EventV1, pf: Platform, pf': Platform)
    requires SameJoinedRows(pf, pf')
    ensures StepModel(m, event, pf') == StepModel(m, event, pf)
  {
  }

  /** Every reachable V1 state: each client's row and entries are exactly those of its model. */
  lemma {:induction false} KeySpaceFollowsModel(log: seq<Message>, c: Id, u: Universe, pf: Platform)
    requires Spaced(u) && c in u.clients && SensibleLog(log, u, pf)
    ensures var s := RunV1(Fresh(pf), log);
            && Shaped(s, c, ModelOf(log, c, pf), LastVersion(log, c)) && Filled(s, c, ModelOf(log, c, pf))
            && SameJoinedRows(pf, s.platform) && Within(s.tokens, u) && RowsWithin(s.platform, u)
  {
    if log != [] {
      var init, last := log[..|log| - 1], log[|log| - 1];
      PrefixIsSensible(log, u, pf);
      KeySpaceFollowsModel(init, c, u, pf);
      var s, m := RunV1(Fresh(pf), init), ModelOf(init, c, pf);
      assert last in log;
      if HandleV1(s, last.event, last.version).Ok? {
        StaysWithin(s, last.event, last.version, u);
        SameRows(s, last.event, last.version);
      }
      if About(last.event, c) {
        AboutKeeps(s, c, m, last.event, LastVersion(init, c), last.version, u);
        StepFills(s, c, m, last.event, LastVersion(init, c), last.version, u);
        SameRowsSameModel(m, last.event, pf, s.platform);
      } else if HandleV1(s, last.event, last.version).Ok? {
        OthersKeep(s, c, m, last.event, LastVersion(init, c), last.version, u);
      }
    }
  }

  lemma SameRows(s: Store, event: EventV1, version: nat)
    requires HandleV1(s, event, version).Ok?
    ensures SameJoinedRows(s.platform, HandleV1(s, event, version).value.platform)
  {
  }

  lemma PrefixIsSensible(log: seq<Message>, u: Universe, pf: Platform)
    requires SensibleLog(log, u, pf) && log != []
    ensures SensibleLog(log[..|log| - 1], u, pf)
  {
    var init := log[..|log| - 1];
    assert forall m <- init :: m in log;
    forall i, c | 0 <= i < |init| && About(init[i].event, c)
      ensures Sensible(ModelOf(init[..i], c, pf), init[i].event) && LastVersion(init[..i], c) <= init[i].version
    {
      assert init[..i] == log[..i] && init[i] == log[i];
    }
  }

  /** Clients of the API in particular: one entry per key, that names the kind, the key and the client's consumer. */
  lemma ApiEntries(s: Store, c: Id, m: Model, version: nat, pk: TokenPK)
    requires Shaped(s, c, Some(m), version) && Filled(s, c, Some(m)) && m.kind == Api && HeldByConsumer(m)
    requires pk.clientId == c
    ensures pk in s.tokens <==> pk.ClientKid? && pk.kid in m.keys
    ensures pk in s.tokens ==> IsPartial(s.tokens[pk], Api, m.keys[pk.kid], Some(m.consumerId))
  {
    assert EntryIs(s.tokens, c, m, pk) && ContentIs(s.tokens, c, m, s.platform, pk);
  }

  /** All client/kid entries name the client's consumer. */
  predicate HeldByConsumer(m: Model) {
    forall kid <- m.holders :: m.holders[kid] == Some(m.consumerId)
  }

  /** The message does not part an entry from the client's consumer: only the loss of the last purpose can, one whose
      row names another consumer or is missing. */
  predicate KeepsHolders(m: Option<Model>, event: EventV1, pf: Platform) {
    event.ClientPurposeRemoved? && m.Some? && m.value.purposes != [] && Without(m.value.purposes, event.purposeId) == []
    ==> ConsumerAfter(pf, event.purposeId) == Some(m.value.consumerId)
  }

  predicate KeepsHoldersAt(log: seq<Message>, c: Id, pf: Platform, i: nat)
    requires i < |log|
  {
    About(log[i].event, c) ==> KeepsHolders(ModelOf(log[..i], c, pf), log[i].event, pf)
  }

  lemma {:induction false} ConsumersHold(log: seq<Message>, c: Id, pf: Platform)
    requires forall i: nat | i < |log| :: KeepsHoldersAt(log, c, pf, i)
    ensures var m := ModelOf(log, c, pf); m.Some? ==> HeldByConsumer(m.value)
  {
    if log != [] {
      var n := |log| - 1;
      var init := log[..n];
      forall i: nat | i < n ensures KeepsHoldersAt(init, c, pf, i) {
        assert init[..i] == log[..i] && KeepsHoldersAt(log, c, pf, i);
      }
      ConsumersHold(init, c, pf);
      assert KeepsHoldersAt(log, c, pf, n);
    }
  }

  /** A client of the API never loses a purpose. */
  lemma ApiKeepsHolders(m: Option<Model>, event: EventV1, pf: Platform)
    requires m.Some? ==> m.value.kind.Api? && m.value.purposes == []
    ensures KeepsHolders(m, event, pf)
  {
  }

  // ---- keys are conserved, and the only purpose can be taken back ----

  /** The kids and public keys under which a client's entries are stored. */
  ghost function Ring(tokens: Tokens, c: Id): set<(Id, string)> {
    set pk | pk in tokens && pk.clientId == c :: (pk.kid, tokens[pk].publicKey)
  }

  lemma RingIsKeys(tokens: Tokens, c: Id, m: Model)
    requires EntriesAre(tokens, c, m)
    ensures Ring(tokens, c) == set kid | kid in m.keys :: (kid, m.keys[kid])
  {
    forall kid | kid in m.keys ensures (kid, m.keys[kid]) in Ring(tokens, c) {
      assert EntryIs(tokens, c, m, SomeKey(m, c, kid));
    }
    forall pk | pk in tokens && pk.clientId == c ensures pk.kid in m.keys && tokens[pk].publicKey == m.keys[pk.kid] {
      assert EntryIs(tokens, c, m, pk);
    }
  }

  /** Adding or removing a purpose never changes a client's kids and public keys. */
  lemma PurposesConserveKeys(tokens: Tokens, c: Id, m: Model, p: Id, pf: Platform)
    requires Exact(tokens, c) && EntriesAre(tokens, c, m) && m.kind.Consumer?
    ensures Ring(AddPurpose(tokens, c, p, |Deduplicated(m.purposes, p)| == 1, pf), c) == Ring(tokens, c)
    ensures Ring(if Without(m.purposes, p) != [] then DropPurpose(tokens, c, p) else ConvertPurpose(tokens, c, p), c)
         == Ring(tokens, c)
  {
    RingIsKeys(tokens, c, m);
    AddKeeps(tokens, c, m, p, pf);
    RingIsKeys(AddPurpose(tokens, c, p, |Deduplicated(m.purposes, p)| == 1, pf), c,
               m.(purposes := Deduplicated(m.purposes, p)));
    RemoveKeeps(tokens, c, m, p, pf);
    RingIsKeys(if Without(m.purposes, p) != [] then DropPurpose(tokens, c, p) else ConvertPurpose(tokens, c, p), c,
               WithoutPurpose(m, p, pf));
  }

  lemma JoinedConsumer(pub: string, pf: Platform, p: Id)
    ensures var e := Join(pub, Retrieve(pf, p));
            e.consumerId == ConsumerAfter(pf, p) && e.clientKind == Consumer && e.publicKey == pub
  {
  }

  lemma RoundTripAt(tokens: Tokens, added: Tokens, back: Tokens, c: Id, m: Model, p: Id, pf: Platform, pk: TokenPK)
    requires Exact(tokens, c) && EntriesAre(tokens, c, m) && m.purposes == [] && m.kind.Consumer?
    requires ScannedKids(tokens, c) == m.keys.Keys && forall kid <- m.keys :: PemOf(tokens, c, kid) == m.keys[kid]
    requires added == AddPurpose(tokens, c, p, true, pf) && back == ConvertPurpose(added, c, p)
    ensures pk in back <==> pk in tokens
    ensures pk in tokens ==>
              (back[pk] == tokens[pk] <==> (pk.clientId == c ==> tokens[pk].consumerId == ConsumerAfter(pf, p)))
  {
    var source := ClientKidPurpose(c, pk.kid, p);
    assert EntryIs(tokens, c, m, pk) && EntryIs(tokens, c, m, source);
    AddPurposeAt(tokens, c, p, true, pf, pk);
    AddPurposeAt(tokens, c, p, true, pf, source);
    ConvertAt(added, c, p, pk);
    if pk.kid in m.keys { JoinedConsumer(m.keys[pk.kid], pf, p); }
  }

  lemma SameWhere(back: Tokens, tokens: Tokens, c: Id, want: Option<Id>)
    requires back.Keys == tokens.Keys
    requires forall pk <- tokens :: back[pk] == tokens[pk] <==> (pk.clientId == c ==> tokens[pk].consumerId == want)
    ensures back == tokens <==> (forall pk <- tokens | pk.clientId == c :: tokens[pk].consumerId == want)
  {
  }

  /** Adding the first purpose and removing it again restores the whole table exactly when every entry of
      the client already carries the consumer of the purpose's row: with no row the consumer id is lost. */
  lemma PurposeRoundTrip(tokens: Tokens, c: Id, m: Model, p: Id, pf: Platform)
    requires Exact(tokens, c) && EntriesAre(tokens, c, m) && m.purposes == [] && m.kind.Consumer?
    ensures ConvertPurpose(AddPurpose(tokens, c, p, true, pf), c, p) == tokens <==>
            (forall pk <- tokens | pk.clientId == c :: tokens[pk].consumerId == ConsumerAfter(pf, p))
  {
    var added := AddPurpose(tokens, c, p, true, pf);
    var back := ConvertPurpose(added, c, p);
    ScannedAreKeys(tokens, c, m);
    forall pk: TokenPK
      ensures pk in back <==> pk in tokens
      ensures pk in tokens ==>
                (back[pk] == tokens[pk] <==> (pk.clientId == c ==> tokens[pk].consumerId == ConsumerAfter(pf, p)))
    {
      RoundTripAt(tokens, added, back, c, m, p, pf, pk);
    }
    SameWhere(back, tokens, c, ConsumerAfter(pf, p));
  }
}
