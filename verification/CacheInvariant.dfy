/**
 The cache equals the join. With handlers run one at a time, every reachable state keeps each
 complete entry of token-generation-states equal to the join over platform-states, and the
 authorization check that reads only the entry decides as if it had read the four rows.
 */
module CacheInvariant {
  import opened Basics
  import opened TokenKeys
  import opened PlatformModel
  import Agreements = AgreementWriter
  import Catalog = CatalogWriter
  import Purposes = PurposeWriter
  import Authorization = AuthorizationWriter

  /** The consumer and e-service of a purpose, which never change. */
  type Owners = Id -> ConsumerEservice

  // ---- the join, seen from one entry ----

  predicate LifespanMatches(lifespan: Option<nat>, value: nat) {
    lifespan == Some(value) || (value == 0 && lifespan == None)
  }

  predicate DescriptorPart(e: Entry, row: CatalogRow) {
    e.descriptorState == Some(row.state) && e.audience == Some(row.audience)
      && LifespanMatches(e.lifespan, row.lifespan)
  }

  predicate AgreementPart(e: Entry, key: ConsumerEservice, a: AgreementRow) {
    && e.agreementId == Some(a.agreementId) && e.agreementState == Some(a.state)
    && e.producerId == Some(a.producerId) && e.descriptor == Some(EserviceDescriptor(key.eserviceId, a.descriptorId))
  }

  predicate NoAgreement(e: Entry) {
    e.agreementId.None? && e.agreementState.None? && e.descriptor.None? && e.descriptorState.None?
  }

  /** The agreement and descriptor fields follow the rows of the consumer and e-service of the entry. */
  predicate FollowsAgreement(pf: Platform, e: Entry) {
    match e.consumerEservice
    case None => NoAgreement(e)
    case Some(key) =>
      if key !in pf.agreements then NoAgreement(e)
      else
        && AgreementPart(e, key, pf.agreements[key])
        && var d := EserviceDescriptor(key.eserviceId, pf.agreements[key].descriptorId);
           (d in pf.catalog ==> DescriptorPart(e, pf.catalog[d]))
  }

  predicate PurposePart(e: Entry, row: PurposeRow) {
    && e.consumerId == Some(row.consumerId) && e.consumerEservice == Some(row.Owner())
    && e.purposeState == Some(row.state) && e.purposeVersionId == Some(row.purposeVersionId)
  }

  /** Every entry is the join of its rows; partial entries hold nothing to join. */
  predicate EntryJoins(pf: Platform, pk: TokenPK, e: Entry, owners: Owners) {
    && FollowsAgreement(pf, e)
    && match pk
       case ClientKid(_, _) => e.consumerEservice.None? && e.purposeState.None?
       case ClientKidPurpose(_, _, p) =>
         && (e.consumerEservice.Some? ==> e.consumerEservice.value == owners(p))
         && (p in pf.purposes ==> PurposePart(e, pf.purposes[p]))
  }

  ghost predicate OwnedRows(pf: Platform, owners: Owners) {
    forall p <- pf.purposes :: pf.purposes[p].Owner() == owners(p)
  }

  ghost predicate Joined(s: Store, owners: Owners) {
    && OwnedRows(s.platform, owners)
    && forall pk <- s.tokens :: EntryJoins(s.platform, pk, s.tokens[pk], owners)
  }

  // ---- what the handlers write ----

  lemma JoinJoins(pf: Platform, pk: TokenPK, pub: string, owners: Owners)
    requires OwnedRows(pf, owners) && pk.ClientKidPurpose?
    ensures EntryJoins(pf, pk, Join(pub, Retrieve(pf, pk.purposeId)), owners)
  {
  }

  lemma PartialJoins(pf: Platform, pk: TokenPK, kind: ClientKind, pub: string, consumerId: Option<Id>, owners: Owners)
    requires pk.ClientKid?
    ensures EntryJoins(pf, pk, PartialEntry(kind, pub, consumerId), owners)
  {
  }

  /** An entry that an authorization handler may leave: one that was there, the join, or a partial one. */
  ghost predicate WrittenByAuthorization(s: Store, pk: TokenPK, e: Entry) {
    || (pk in s.tokens && e == s.tokens[pk])
    || (pk.ClientKidPurpose? && e == Join(e.publicKey, Retrieve(s.platform, pk.purposeId)))
    || (pk.ClientKid? && e == PartialEntry(e.clientKind, e.publicKey, e.consumerId))
  }

  lemma AuthorizationV1Writes(s: Store, event: Authorization.EventV1, version: nat, pk: TokenPK)
    requires Authorization.HandleV1(s, event, version).Ok?
    requires pk in Authorization.HandleV1(s, event, version).value.tokens
    ensures WrittenByAuthorization(s, pk, Authorization.HandleV1(s, event, version).value.tokens[pk])
  {
    match event
    case KeysAdded(_, _) =>
    case ClientPurposeAdded(_, _) =>
    case ClientPurposeRemoved(_, _) =>
    case _ =>
  }

  lemma AuthorizationV2Writes(s: Store, event: Authorization.EventV2, version: nat, pk: TokenPK)
    requires Authorization.HandleV2(s, event, version).Ok?
    requires pk in Authorization.HandleV2(s, event, version).value.tokens
    ensures WrittenByAuthorization(s, pk, Authorization.HandleV2(s, event, version).value.tokens[pk])
  {
    match event
    case ClientKeyAddedV2(_, _) =>
    case ClientPurposeAddedV2(_, _) =>
    case _ =>
  }

  lemma AuthorizationKeepsJoin(s: Store, s': Store, owners: Owners)
    requires Joined(s, owners) && SameJoinedRows(s.platform, s'.platform)
    requires forall pk <- s'.tokens :: WrittenByAuthorization(s, pk, s'.tokens[pk])
    ensures Joined(s', owners)
  {
    forall pk | pk in s'.tokens
      ensures EntryJoins(s'.platform, pk, s'.tokens[pk], owners)
    {
      var e := s'.tokens[pk];
      if pk in s.tokens && e == s.tokens[pk] {
        assert EntryJoins(s.platform, pk, e, owners);
      } else if pk.ClientKidPurpose? {
        JoinJoins(s.platform, pk, e.publicKey, owners);
      } else {
        PartialJoins(s.platform, pk, e.clientKind, e.publicKey, e.consumerId, owners);
      }
    }
  }

  // ---- agreement events ----

  /** The action that the agreement consumer's guards choose is about the agreement of the message. */
  predicate ActsOn(a: Agreements.Agreement, action: Agreements.Action) {
    match action
    case Replace(row) => row == Agreements.RowOf(a, row.timestamp, row.version)
    case _ => true
  }

  lemma ActKeepsJoin(s: Store, a: Agreements.Agreement, action: Agreements.Action, owners: Owners)
    requires Joined(s, owners) && ActsOn(a, action) && Agreements.Act(s, a, action).Ok?
    ensures Joined(Agreements.Act(s, a, action).value, owners)
  {
    var s' := Agreements.Act(s, a, action).value;
    forall pk | pk in s'.tokens
      ensures EntryJoins(s'.platform, pk, s'.tokens[pk], owners)
    {
      assert EntryJoins(s.platform, pk, s.tokens[pk], owners);
    }
  }

  lemma AgreementDeletionKeepsJoin(s: Store, id: Id, version: nat, owners: Owners)
    requires Joined(s, owners)
    ensures Joined(Agreements.DeleteV1(s, id, version), owners)
  {
    var s' := Agreements.DeleteV1(s, id, version);
    forall pk | pk in s'.tokens
      ensures EntryJoins(s'.platform, pk, s'.tokens[pk], owners)
    {
      assert EntryJoins(s.platform, pk, s.tokens[pk], owners);
    }
  }

  // ---- catalog events ----

  /** One entry after an operation on a descriptor. */
  function PerformOnEntry(op: Catalog.Op, pk: TokenPK, e: Entry): Entry {
    if Selects(ByDescriptor(op.key), pk, e) then Apply(Catalog.EntryPatch(op), e) else e
  }

  lemma PerformJoinsEntry(pf: Platform, op: Catalog.Op, pk: TokenPK, e: Entry, owners: Owners)
    requires EntryJoins(pf, pk, e, owners) && Catalog.Proceeds(op, Lookup(pf.catalog, op.key))
    ensures EntryJoins(
              Catalog.SetRow(pf, op.key, Catalog.WrittenRow(op, Lookup(pf.catalog, op.key))),
              pk, PerformOnEntry(op, pk, e), owners)
  {
    match op
    case Publish(_, _) =>
    case Restate(_, _, _) =>
    case Archive(_, _) =>
    case Requota(_, _, _) =>
  }

  lemma PerformKeepsJoin(s: Store, op: Catalog.Op, owners: Owners)
    requires Joined(s, owners)
    ensures Joined(Catalog.Perform(s, op), owners)
  {
    if Catalog.Proceeds(op, Lookup(s.platform.catalog, op.key)) {
      forall pk | pk in s.tokens { PerformJoinsEntry(s.platform, op, pk, s.tokens[pk], owners); }
    }
  }

  lemma {:induction false} PerformAllKeepsJoin(s: Store, ops: seq<Catalog.Op>, owners: Owners)
    requires Joined(s, owners)
    ensures Joined(Catalog.PerformAll(s, ops), owners)
    decreases |ops|
  {
    if ops != [] {
      PerformKeepsJoin(s, ops[0], owners);
      PerformAllKeepsJoin(Catalog.Perform(s, ops[0]), ops[1..], owners);
    }
  }

  // ---- purpose events ----

  lemma ActivationPatchJoins(pf: Platform, pf': Platform, p: Purposes.Purpose, row: PurposeRow, pk: TokenPK, e: Entry,
                             owners: Owners)
    requires EntryJoins(pf, pk, e, owners) && p.Owner() == owners(p.id) == row.Owner()
    requires pf' == Purposes.SetRow(pf, p.id, row)
    requires Selects(ByPurpose(p.id), pk, e)
    ensures EntryJoins(
              pf', pk, Apply(Purposes.ActivationPatch(pf, p, row.state, row.purposeVersionId), e), owners)
  {
    var e' := Apply(Purposes.ActivationPatch(pf, p, row.state, row.purposeVersionId), e);
    assert e'.consumerEservice == Some(p.Owner());
    assert p.Owner() !in pf.agreements ==> NoAgreement(e);
  }

  lemma PurposeKeepsJoin(s: Store, event: Purposes.EventV2, p: Purposes.Purpose, version: nat, owners: Owners)
    requires Joined(s, owners) && p.Owner() == owners(p.id)
    requires Purposes.HandleV2(s, event, p, version).Ok?
    ensures Joined(Purposes.HandleV2(s, event, p, version).value, owners)
  {
    var s' := Purposes.HandleV2(s, event, p, version).value;
    forall pk | pk in s'.tokens
      ensures EntryJoins(s'.platform, pk, s'.tokens[pk], owners)
    {
      assert EntryJoins(s.platform, pk, s.tokens[pk], owners);
      match event
      case PurposeActivated =>
        if s' != s && Selects(ByPurpose(p.id), pk, s.tokens[pk]) {
          ActivationPatchJoins(s.platform, s'.platform, p, s'.platform.purposes[p.id], pk, s.tokens[pk], owners);
        }
      case PurposeVersionChanged(_) =>
      case PurposeArchived(_) =>
      case OtherV2 =>
    }
  }

  // ---- whole runs ----

  datatype Event =
    | AgreementV1(ag1: Agreements.EventV1, agreement1: Agreements.Agreement)
    | AgreementV2(ag2: Agreements.EventV2, agreement2: Agreements.Agreement)
    | AgreementDeletedV1(agreementId: Id)
    | CatalogV1(eserviceId: Id, descriptor: Catalog.Descriptor)
    | CatalogV2(cat2: Catalog.EventV2, eservice: Catalog.Eservice, asyncOn: bool)
    | PurposeV2(pur2: Purposes.EventV2, purpose: Purposes.Purpose)
    | AuthorizationV1(au1: Authorization.EventV1)
    | AuthorizationV2(au2: Authorization.EventV2)

  datatype Message = Message(event: Event, version: nat)

  ghost function Handle(s: Store, m: Message): Result<Store> {
    match m.event
    case AgreementV1(event, a) => Agreements.HandleV1(s, event, a, m.version)
    case AgreementV2(event, a) => Agreements.HandleV2(s, event, a, m.version)
    case AgreementDeletedV1(id) => Ok(Agreements.DeleteV1(s, id, m.version))
    case CatalogV1(es, d) => Ok(Catalog.HandleV1(s, es, d, m.version))
    case CatalogV2(event, es, asyncOn) => Catalog.HandleV2(s, event, es, m.version, asyncOn)
    case PurposeV2(event, p) => Purposes.HandleV2(s, event, p, m.version)
    case AuthorizationV1(event) => Authorization.HandleV1(s, event, m.version)
    case AuthorizationV2(event) => Authorization.HandleV2(s, event, m.version)
  }

  /** A message whose handler throws leaves both tables as they were. */
  ghost function Step(s: Store, m: Message): Store {
    match Handle(s, m)
    case Ok(s') => s'
    case Failed => s
  }

  ghost function Run(s: Store, messages: seq<Message>): Store {
    if messages == [] then s
    else Step(Run(s, messages[..|messages| - 1]), messages[|messages| - 1])
  }

  /** The only demand on messages: a purpose keeps its consumer and e-service. */
  predicate WellFormed(m: Message, owners: Owners) {
    m.event.PurposeV2? ==> m.event.purpose.Owner() == owners(m.event.purpose.id)
  }

  lemma StepKeepsJoin(s: Store, m: Message, owners: Owners)
    requires Joined(s, owners) && WellFormed(m, owners)
    ensures Joined(Step(s, m), owners)
  {
    var r := Handle(s, m);
    if r.Ok? {
      match m.event
      case AgreementV1(event, a) =>
        ActKeepsJoin(s, a, Agreements.DecideV1(Lookup(s.platform.agreements, a.Key()), event, a, m.version), owners);
      case AgreementV2(event, a) =>
        ActKeepsJoin(s, a, Agreements.DecideV2(Lookup(s.platform.agreements, a.Key()), event, a, m.version), owners);
      case AgreementDeletedV1(id) => AgreementDeletionKeepsJoin(s, id, m.version, owners);
      case CatalogV1(es, d) => PerformAllKeepsJoin(s, Catalog.OpsV1(es, d, m.version), owners);
      case CatalogV2(event, es, asyncOn) =>
        PerformAllKeepsJoin(s, Catalog.OpsV2(event, es, m.version, asyncOn).value, owners);
      case PurposeV2(event, p) => PurposeKeepsJoin(s, event, p, m.version, owners);
      case AuthorizationV1(event) =>
        forall pk | pk in r.value.tokens { AuthorizationV1Writes(s, event, m.version, pk); }
        AuthorizationV1Rows(s, event, m.version);
        AuthorizationKeepsJoin(s, r.value, owners);
      case AuthorizationV2(event) =>
        forall pk | pk in r.value.tokens { AuthorizationV2Writes(s, event, m.version, pk); }
        AuthorizationV2Rows(s, event, m.version);
        AuthorizationKeepsJoin(s, r.value, owners);
    }
  }

  lemma AuthorizationV1Rows(s: Store, event: Authorization.EventV1, version: nat)
    requires Authorization.HandleV1(s, event, version).Ok?
    ensures SameJoinedRows(s.platform, Authorization.HandleV1(s, event, version).value.platform)
  {
  }

  lemma AuthorizationV2Rows(s: Store, event: Authorization.EventV2, version: nat)
    requires Authorization.HandleV2(s, event, version).Ok?
    ensures SameJoinedRows(s.platform, Authorization.HandleV2(s, event, version).value.platform)
  {
  }

  lemma {:induction false} RunKeepsJoin(s: Store, messages: seq<Message>, owners: Owners)
    requires Joined(s, owners) && forall m <- messages :: WellFormed(m, owners)
    ensures Joined(Run(s, messages), owners)
  {
    if messages != [] {
      var init := messages[..|messages| - 1];
      assert forall m <- init :: m in messages;
      RunKeepsJoin(s, init, owners);
      StepKeepsJoin(Run(s, init), messages[|messages| - 1], owners);
    }
  }

  const EMPTY := Store(Platform(map[], map[], map[], map[]), map[])

  /** Each group of fields equals its row, wherever the join reaches that row. */
  predicate MatchesRows(e: Entry, r: Rows) {
    && (r.purpose.Some? ==> PurposePart(e, r.purpose.value))
    && (r.purpose.Some? && r.agreement.Some? ==> AgreementPart(e, r.purpose.value.Owner(), r.agreement.value))
    && (r.catalog.Some? ==> DescriptorPart(e, r.catalog.value))
  }

  /** Cache equals join: whatever well-formed messages the four consumers handle, in whatever order,
      every complete entry matches the rows that its purpose leads to. */
  lemma CacheEqualsJoin(messages: seq<Message>, owners: Owners, pk: TokenPK)
    requires forall m <- messages :: WellFormed(m, owners)
    requires pk in Run(EMPTY, messages).tokens && pk.ClientKidPurpose?
    ensures var s := Run(EMPTY, messages); MatchesRows(s.tokens[pk], Retrieve(s.platform, pk.purposeId))
  {
    RunKeepsJoin(EMPTY, messages, owners);
    var s := Run(EMPTY, messages);
    assert EntryJoins(s.platform, pk, s.tokens[pk], owners);
  }
}
