/**
 The two DynamoDB tables behind token generation.

 `platform-states` holds one row per purpose, agreement, descriptor and client.
 `token-generation-states` is a denormalised cache: each complete entry, keyed by
 client, kid and purpose, should be the join purpose -> agreement -> descriptor.
 */
module PlatformModel {
  import opened Basics
  import opened TokenKeys

  datatype ItemState = Active | Inactive
  datatype ClientKind = Consumer | Api

  datatype ConsumerEservice = ConsumerEservice(consumerId: Id, eserviceId: Id)
  datatype EserviceDescriptor = EserviceDescriptor(eserviceId: Id, descriptorId: Id)

  // ---- platform-states ----

  datatype PurposeRow = PurposeRow(
    state: ItemState, purposeVersionId: Id, eserviceId: Id, consumerId: Id, version: nat)
  {
    function Owner(): ConsumerEservice { ConsumerEservice(consumerId, eserviceId) }
  }

  datatype AgreementRow = AgreementRow(
    state: ItemState, version: nat, agreementId: Id, timestamp: int, descriptorId: Id, producerId: Id)

  datatype CatalogRow = CatalogRow(
    state: ItemState, audience: seq<string>, lifespan: nat, asyncExchange: Option<bool>, version: nat)

  datatype ClientRow = ClientRow(
    kind: ClientKind, consumerId: Id, purposesIds: seq<Id>, version: nat)

  datatype Platform = Platform(
    purposes: map<Id, PurposeRow>,
    agreements: map<ConsumerEservice, AgreementRow>,
    catalog: map<EserviceDescriptor, CatalogRow>,
    clients: map<Id, ClientRow>)

  // ---- token-generation-states ----

  /** An entry without its key. The client, client/kid, purpose and client/purpose indexes only repeat
      parts of the key and are written with it, so they are read off the key. */
  datatype Entry = Entry(
    clientKind: ClientKind,
    publicKey: string,
    consumerId: Option<Id>,
    consumerEservice: Option<ConsumerEservice>,
    purposeState: Option<ItemState>,
    purposeVersionId: Option<Id>,
    agreementId: Option<Id>,
    agreementState: Option<ItemState>,
    producerId: Option<Id>,
    descriptor: Option<EserviceDescriptor>,
    descriptorState: Option<ItemState>,
    audience: Option<seq<string>>,
    lifespan: Option<nat>,
    asyncExchange: Option<bool>)

  type Tokens = map<TokenPK, Entry>

  datatype Store = Store(platform: Platform, tokens: Tokens)

  // ---- the join ----

  datatype Rows = Rows(
    purpose: Option<PurposeRow>, agreement: Option<AgreementRow>, catalog: Option<CatalogRow>)

  /** `retrievePlatformStatesByPurpose`: follows purpose, then agreement, then descriptor,
      and stops at the first missing row. */
  function Retrieve(pf: Platform, purposeId: Id): Rows {
    match Lookup(pf.purposes, purposeId)
    case None => Rows(None, None, None)
    case Some(p) =>
      match Lookup(pf.agreements, p.Owner())
      case None => Rows(Some(p), None, None)
      case Some(a) =>
        Rows(Some(p), Some(a), Lookup(pf.catalog, EserviceDescriptor(p.eserviceId, a.descriptorId)))
  }

  /** The rows that the join reads. */
  ghost predicate SameJoinedRows(pf: Platform, pf': Platform) {
    pf'.purposes == pf.purposes && pf'.agreements == pf.agreements && pf'.catalog == pf.catalog
  }

  /** An entry with a key but no purpose, keyed by client and kid only. */
  function PartialEntry(kind: ClientKind, publicKey: string, consumerId: Option<Id>): Entry {
    Entry(kind, publicKey, consumerId, None, None, None, None, None, None, None, None, None, None, None)
  }

  /** `createTokenGenStatesConsumerClient`: the entry as the handler holds it in memory. */
  function Create(consumerId: Option<Id>, publicKey: string, r: Rows): Entry {
    var owned := r.purpose.Some? && consumerId.Some?;
    var agreed := r.purpose.Some? && r.agreement.Some?;
    var described := r.catalog.Some?;
    Entry(
      Consumer,
      publicKey,
      if owned then consumerId else None,
      if owned then Some(ConsumerEservice(consumerId.value, r.purpose.value.eserviceId)) else None,
      if owned then Some(r.purpose.value.state) else None,
      if owned then Some(r.purpose.value.purposeVersionId) else None,
      if agreed then Some(r.agreement.value.agreementId) else None,
      if agreed then Some(r.agreement.value.state) else None,
      if agreed then Some(r.agreement.value.producerId) else None,
      if agreed then Some(EserviceDescriptor(r.purpose.value.eserviceId, r.agreement.value.descriptorId)) else None,
      if described then Some(r.catalog.value.state) else None,
      if described then Some(r.catalog.value.audience) else None,
      if described then Some(r.catalog.value.lifespan) else None,
      if described then r.catalog.value.asyncExchange else None)
  }

  /** What PutItem stores: a zero lifespan is falsy, so the attribute is not written. */
  function Stored(e: Entry): Entry {
    e.(lifespan := if e.lifespan == Some(0) then None else e.lifespan)
  }

  /** `setIfChanged` on a scalar field: the in-memory value decides, the stored one is replaced. */
  function SetIfChanged<T(==)>(stored: Option<T>, mem: Option<T>, value: T): Option<T> {
    if mem != Some(value) then Some(value) else stored
  }

  /** `setIfChanged` on the audience: replaced only if some old value disappeared. */
  function SetAudienceIfChanged(stored: Option<seq<string>>, mem: Option<seq<string>>, value: seq<string>)
    : Option<seq<string>>
  {
    if mem.Some? && forall v <- mem.value :: v in value then stored else Some(value)
  }

  /** `updateTokenGenStatesDataForSecondRetrieval`: `mem` is the entry written before,
      `e` the entry stored now, `r` the rows retrieved again. `agreementId` is not refreshed. */
  function SecondRetrieval(e: Entry, mem: Entry, r: Rows): Entry {
    var p, a, c := r.purpose, r.agreement, r.catalog;
    var agreed := p.Some? && a.Some?;
    Entry(
      e.clientKind,
      e.publicKey,
      if p.Some? then SetIfChanged(e.consumerId, mem.consumerId, p.value.consumerId) else e.consumerId,
      if p.Some? then SetIfChanged(e.consumerEservice, mem.consumerEservice, p.value.Owner()) else e.consumerEservice,
      if p.Some? then SetIfChanged(e.purposeState, mem.purposeState, p.value.state) else e.purposeState,
      if p.Some? then SetIfChanged(e.purposeVersionId, mem.purposeVersionId, p.value.purposeVersionId)
      else e.purposeVersionId,
      e.agreementId,
      if agreed then SetIfChanged(e.agreementState, mem.agreementState, a.value.state) else e.agreementState,
      if agreed then SetIfChanged(e.producerId, mem.producerId, a.value.producerId) else e.producerId,
      if agreed
      then SetIfChanged(e.descriptor, mem.descriptor, EserviceDescriptor(p.value.eserviceId, a.value.descriptorId))
      else e.descriptor,
      if c.Some? then SetIfChanged(e.descriptorState, mem.descriptorState, c.value.state) else e.descriptorState,
      if c.Some? then SetAudienceIfChanged(e.audience, mem.audience, c.value.audience) else e.audience,
      if c.Some? then SetIfChanged(e.lifespan, mem.lifespan, c.value.lifespan) else e.lifespan,
      if c.Some? && c.value.asyncExchange.Some?
      then SetIfChanged(e.asyncExchange, mem.asyncExchange, c.value.asyncExchange.value)
      else e.asyncExchange)
  }

  /** The entry that the join prescribes. */
  function Join(publicKey: string, r: Rows): Entry {
    Stored(Create(if r.purpose.Some? then Some(r.purpose.value.consumerId) else None, publicKey, r))
  }

  /** What a second retrieval leaves of an entry that holds what was put: the fields of the rows that are there,
      but the agreement id never, the audience only if it lost a value, and the asynchronous flag only if the
      row has one. */
  lemma SecondRetrievalRefreshes(mem: Entry, r: Rows)
    requires Chained(r)
    ensures var e, put := SecondRetrieval(Stored(mem), mem, r), Stored(mem);
            && e.clientKind == mem.clientKind && e.publicKey == mem.publicKey && e.agreementId == mem.agreementId
            && (match r.purpose
                case None =>
                  && e.consumerId == mem.consumerId && e.consumerEservice == mem.consumerEservice
                  && e.purposeState == mem.purposeState && e.purposeVersionId == mem.purposeVersionId
                case Some(p) =>
                  && e.consumerId == Some(p.consumerId) && e.purposeState == Some(p.state)
                  && e.consumerEservice == Some(ConsumerEservice(p.consumerId, p.eserviceId))
                  && e.purposeVersionId == Some(p.purposeVersionId))
            && (match r.agreement
                case None =>
                  && e.agreementState == mem.agreementState && e.producerId == mem.producerId
                  && e.descriptor == mem.descriptor
                case Some(a) =>
                  && e.agreementState == Some(a.state) && e.producerId == Some(a.producerId)
                  && e.descriptor == Some(EserviceDescriptor(r.purpose.value.eserviceId, a.descriptorId)))
            && (match r.catalog
                case None =>
                  && e.descriptorState == mem.descriptorState && e.audience == mem.audience
                  && e.lifespan == put.lifespan && e.asyncExchange == mem.asyncExchange
                case Some(c) =>
                  && e.descriptorState == Some(c.state)
                  && e.audience == (if mem.audience.Some? && forall v <- mem.audience.value :: v in c.audience
                                    then mem.audience else Some(c.audience))
                  && (e.lifespan == Some(c.lifespan) || (c.lifespan == 0 && e.lifespan.None?))
                  && e.asyncExchange == if c.asyncExchange.Some? then c.asyncExchange else mem.asyncExchange)
  {
  }

  /** Rows as `Retrieve` returns them: no later row without the earlier ones. */
  predicate Chained(r: Rows) {
    && (r.purpose.None? ==> r.agreement.None?)
    && (r.agreement.None? ==> r.catalog.None?)
  }

  /** `e` differs from the join only where `mem`, the entry of the last put, does. */
  predicate Near(e: Entry, mem: Entry, j: Entry) {
    && e.clientKind == j.clientKind && e.publicKey == j.publicKey
    && (e.consumerId == j.consumerId || e.consumerId == mem.consumerId)
    && (e.consumerEservice == j.consumerEservice || e.consumerEservice == mem.consumerEservice)
    && (e.purposeState == j.purposeState || e.purposeState == mem.purposeState)
    && (e.purposeVersionId == j.purposeVersionId || e.purposeVersionId == mem.purposeVersionId)
    && e.agreementId == j.agreementId && e.agreementState == j.agreementState
    && e.producerId == j.producerId && e.descriptor == j.descriptor
    && e.descriptorState == j.descriptorState && e.audience == j.audience
    && e.lifespan == j.lifespan && e.asyncExchange == j.asyncExchange
  }

  /** While the rows do not change, a put followed by its second retrieval gives the join,
      whatever consumer id the handler started from. */
  lemma SecondRetrievalReachesJoin(e: Entry, mem: Entry, x: Option<Id>, pub: string, r: Rows)
    requires Chained(r)
    requires mem == Create(x, pub, r)
    requires Near(e, mem, Join(pub, r))
    ensures SecondRetrieval(e, mem, r) == Join(pub, r)
  {
    if r.purpose.None? {
    } else if r.agreement.None? {
    } else if r.catalog.None? {
    } else {
    }
  }

  /** The second retrieval of another put of the same entry never leads away from the join. */
  lemma SecondRetrievalStaysNear(e: Entry, mem: Entry, x: Option<Id>, y: Option<Id>, pub: string, r: Rows)
    requires Chained(r)
    requires mem == Create(x, pub, r)
    requires Near(e, mem, Join(pub, r))
    ensures Near(SecondRetrieval(e, Create(y, pub, r), r), mem, Join(pub, r))
  {
    if r.purpose.None? {
    } else if r.agreement.None? {
    } else if r.catalog.None? {
    } else {
    }
  }

  lemma PutIsNear(x: Option<Id>, pub: string, r: Rows)
    requires Chained(r)
    ensures Near(Stored(Create(x, pub, r)), Create(x, pub, r), Join(pub, r))
  {
  }

  // ---- index queries and the updates applied to their results ----

  /** The secondary indexes and filters that the consumers query. */
  datatype Query =
    | ByAgreement(key: ConsumerEservice)
    | ByDescriptor(descriptor: EserviceDescriptor)
    | ByPurpose(purposeId: Id)
    | ByAgreementId(agreementId: Id)

  predicate Selects(q: Query, pk: TokenPK, e: Entry) {
    match q
    case ByAgreement(key) => e.consumerEservice == Some(key)
    case ByDescriptor(d) => e.descriptor == Some(d)
    case ByPurpose(p) => pk.ClientKidPurpose? && pk.purposeId == p
    case ByAgreementId(a) => e.agreementId == Some(a)
  }

  /** One UpdateItem on one entry. */
  datatype Patch =
    | SetAgreementState(state: ItemState)
    | MoveAgreement(agreementId: Id, state: ItemState, producerId: Id, descriptor: EserviceDescriptor,
                    catalog: Option<CatalogRow>)
    | SetDescriptorState(state: ItemState, at: EserviceDescriptor)
    | SetDescriptorInfo(state: ItemState, lifespan: nat, audience: seq<string>)
    | SetLifespan(lifespan: nat)
    | SetPurpose(consumerId: Id, state: ItemState, purposeVersionId: Id)
    | JoinPurpose(owner: ConsumerEservice, state: ItemState, purposeVersionId: Id,
                  agreement: Option<AgreementRow>, catalog: Option<CatalogRow>)

  function WithCatalog(e: Entry, c: CatalogRow): Entry {
    e.(descriptorState := Some(c.state), audience := Some(c.audience), lifespan := Some(c.lifespan))
  }

  function Apply(p: Patch, e: Entry): Entry {
    match p
    case SetAgreementState(state) => e.(agreementState := Some(state))
    case MoveAgreement(agreementId, state, producerId, descriptor, catalog) =>
      // the writer compares the audiences by reference, so present descriptor info is always rewritten
      var e := e.(agreementId := Some(agreementId), agreementState := Some(state),
                  descriptor := Some(descriptor), producerId := Some(producerId));
      if catalog.Some? then WithCatalog(e, catalog.value) else e
    case SetDescriptorState(state, at) =>
      // conditional update: skipped when the entry has moved to another descriptor
      if e.descriptor == Some(at) then e.(descriptorState := Some(state)) else e
    case SetDescriptorInfo(state, lifespan, audience) =>
      e.(descriptorState := Some(state), audience := Some(audience), lifespan := Some(lifespan))
    case SetLifespan(lifespan) => e.(lifespan := Some(lifespan))
    case SetPurpose(consumerId, state, purposeVersionId) =>
      e.(consumerId := Some(consumerId), purposeState := Some(state), purposeVersionId := Some(purposeVersionId))
    case JoinPurpose(owner, state, purposeVersionId, agreement, catalog) =>
      var e := e.(consumerId := Some(owner.consumerId), purposeState := Some(state),
                  purposeVersionId := Some(purposeVersionId), consumerEservice := Some(owner));
      if agreement.None? then e
      else
        var a := agreement.value;
        var e := e.(agreementId := Some(a.agreementId), agreementState := Some(a.state),
                    producerId := Some(a.producerId),
                    descriptor := Some(EserviceDescriptor(owner.eserviceId, a.descriptorId)));
        if catalog.Some? then WithCatalog(e, catalog.value) else e
  }

  /** The whole-table meaning of one paged query-and-update loop. */
  function PatchAll(tokens: Tokens, q: Query, p: Patch): Tokens {
    map pk | pk in tokens :: if Selects(q, pk, tokens[pk]) then Apply(p, tokens[pk]) else tokens[pk]
  }

  /** A query and an update that do not disturb each other: the update is idempotent and
      does not change which entries the query selects. Every loop of the consumers is of this kind. */
  ghost predicate Stable(q: Query, p: Patch) {
    forall pk: TokenPK, e: Entry | Selects(q, pk, e) ::
      Selects(q, pk, Apply(p, e)) && Apply(p, Apply(p, e)) == Apply(p, e)
  }

  /** How a query or scan is cut into pages, whatever the table holds when each is read; keys that a later
      page would hold belong to the last one. Every split of the key space is some `pageOf`. */
  datatype Paging = Paging(pageOf: TokenPK -> nat, last: nat)
  {
    function Index(pk: TokenPK): nat { if pageOf(pk) < last then pageOf(pk) else last }
  }
}
