/**
 The reader of the cache. The authorization check looks only at the three states stored in an
 entry; this module says when that is the same as looking at the purpose, agreement and descriptor rows.
 */
module CachedDecision {
  import opened Basics
  import opened TokenKeys
  import opened PlatformModel
  import opened CacheInvariant

  datatype StateError = InvalidAgreementState | InvalidEserviceState | InvalidPurposeState

  /** `validatePlatformState`: the errors of a rejection, agreement first and purpose last; none on acceptance. */
  function ValidatePlatformState(e: Entry): seq<StateError> {
    (if e.agreementState != Some(Active) then [InvalidAgreementState] else [])
    + (if e.descriptorState != Some(Active) then [InvalidEserviceState] else [])
    + (if e.purposeState != Some(Active) then [InvalidPurposeState] else [])
  }

  predicate AllActive(r: Rows) {
    && r.purpose.Some? && r.purpose.value.state == Active
    && r.agreement.Some? && r.agreement.value.state == Active
    && r.catalog.Some? && r.catalog.value.state == Active
  }

  /** The descriptor that an entry's agreement row names, if the entry has one. */
  function AgreedDescriptor(pf: Platform, e: Entry): Option<EserviceDescriptor> {
    if e.consumerEservice.Some? && e.consumerEservice.value in pf.agreements
    then Some(EserviceDescriptor(e.consumerEservice.value.eserviceId,
                                 pf.agreements[e.consumerEservice.value].descriptorId))
    else None
  }

  /** No entry looks active on behalf of a row that is not there. */
  predicate EntryHonest(pf: Platform, pk: TokenPK, e: Entry) {
    && (pk.ClientKidPurpose? && pk.purposeId !in pf.purposes ==> e.purposeState != Some(Active))
    && (AgreedDescriptor(pf, e).Some? && AgreedDescriptor(pf, e).value !in pf.catalog
        ==> e.descriptorState != Some(Active))
  }

  ghost predicate Honest(s: Store) {
    forall pk <- s.tokens :: EntryHonest(s.platform, pk, s.tokens[pk])
  }

  /** The decision on the entry is the decision on the rows, error by error. */
  predicate Right(e: Entry, r: Rows) {
    var errors := ValidatePlatformState(e);
    && (errors == [] <==> AllActive(r))
    && (InvalidPurposeState in errors <==> !(r.purpose.Some? && r.purpose.value.state == Active))
    && (r.purpose.Some? ==>
          (InvalidAgreementState in errors <==> !(r.agreement.Some? && r.agreement.value.state == Active)))
    && (r.purpose.Some? ==>
          (InvalidEserviceState in errors <==> !(r.catalog.Some? && r.catalog.value.state == Active)))
  }

  /** The entry does not look active where the purpose row, or the descriptor row under it, is missing. */
  predicate NotMisled(pf: Platform, purposeId: Id, e: Entry) {
    if purposeId in pf.purposes
    then AgreedDescriptor(pf, e).Some? && AgreedDescriptor(pf, e).value !in pf.catalog ==>
      e.descriptorState != Some(Active)
    else e.purposeState != Some(Active)
  }

  /** In a joined state, which every run reaches, the cached decision is right exactly where no missing row misleads. */
  lemma DecisionRightIff(s: Store, owners: Owners, pk: TokenPK)
    requires Joined(s, owners) && pk in s.tokens && pk.ClientKidPurpose?
    ensures Right(s.tokens[pk], Retrieve(s.platform, pk.purposeId)) <==>
              NotMisled(s.platform, pk.purposeId, s.tokens[pk])
  {
    assert EntryJoins(s.platform, pk, s.tokens[pk], owners);
    var e := s.tokens[pk];
    assert ValidatePlatformState(e) == [] <==>
           e.agreementState == Some(Active) && e.descriptorState == Some(Active) && e.purposeState == Some(Active);
  }

  lemma HonestIsNotMisled(s: Store, pk: TokenPK)
    requires Honest(s) && pk in s.tokens && pk.ClientKidPurpose?
    ensures NotMisled(s.platform, pk.purposeId, s.tokens[pk])
  {
    assert EntryHonest(s.platform, pk, s.tokens[pk]);
  }

  // ---- which messages keep the entries honest ----

  /** The entries of a consumer and e-service that look active on a descriptor. */
  ghost predicate LooksActive(s: Store, key: ConsumerEservice) {
    exists pk <- s.tokens :: s.tokens[pk].consumerEservice == Some(key) && s.tokens[pk].descriptorState == Some(Active)
  }

  /** An activation or upgrade keeps the entries honest exactly when its descriptor has a row
      or no entry of the consumer and e-service looks active. */
  lemma MoveKeepsHonest(s: Store, a: Agreements.Agreement, row: AgreementRow, owners: Owners)
    requires Joined(s, owners) && Honest(s) && row == Agreements.RowOf(a, row.timestamp, row.version)
    ensures Honest(Agreements.Act(s, a, Agreements.Replace(row)).value) <==>
            a.Descriptor() in s.platform.catalog || !LooksActive(s, a.Key())
  {
    var s' := Agreements.Act(s, a, Agreements.Replace(row)).value;
    forall pk | pk in s.tokens
      ensures EntryHonest(s'.platform, pk, s'.tokens[pk]) <==>
              a.Descriptor() in s.platform.catalog
              || s.tokens[pk].consumerEservice != Some(a.Key()) || s.tokens[pk].descriptorState != Some(Active)
    {
      assert EntryJoins(s.platform, pk, s.tokens[pk], owners) && EntryHonest(s.platform, pk, s.tokens[pk]);
    }
    assert s'.tokens.Keys == s.tokens.Keys;
  }

  ghost predicate PointedTo(s: Store, key: EserviceDescriptor) {
    exists pk <- s.tokens :: s.tokens[pk].descriptor == Some(key)
  }

  /** Archiving a descriptor keeps the entries honest exactly when the message carries an inactive
      state or no entry points to the descriptor. */
  lemma ArchiveKeepsHonest(s: Store, key: EserviceDescriptor, state: ItemState, owners: Owners)
    requires Joined(s, owners) && Honest(s)
    ensures Honest(Catalog.Perform(s, Catalog.Archive(key, state))) <==> state == Inactive || !PointedTo(s, key)
  {
    var s' := Catalog.Perform(s, Catalog.Archive(key, state));
    forall pk | pk in s.tokens
      ensures EntryHonest(s'.platform, pk, s'.tokens[pk]) <==>
              state == Inactive || s.tokens[pk].descriptor != Some(key)
    {
      assert EntryJoins(s.platform, pk, s.tokens[pk], owners) && EntryHonest(s.platform, pk, s.tokens[pk]);
    }
    assert s'.tokens.Keys == s.tokens.Keys;
  }

  /** Archiving a purpose keeps the entries honest exactly when no version is active
      or the purpose has no entry. */
  lemma PurposeArchiveKeepsHonest(s: Store, p: Purposes.Purpose, versionId: Id, version: nat)
    requires Honest(s)
    ensures Honest(Purposes.HandleV2(s, Purposes.PurposeArchived(versionId), p, version).value) <==>
            Purposes.StateOf(p.versions) == Inactive
            || (forall pk <- s.tokens :: pk.ClientKidPurpose? ==> pk.purposeId != p.id)
  {
    var s' := Purposes.HandleV2(s, Purposes.PurposeArchived(versionId), p, version).value;
    forall pk | pk in s.tokens
      ensures EntryHonest(s'.platform, pk, s'.tokens[pk]) <==>
              Purposes.StateOf(p.versions) == Inactive || pk.ClientKid? || pk.purposeId != p.id
    {
      assert EntryHonest(s.platform, pk, s.tokens[pk]);
    }
    assert s'.tokens.Keys == s.tokens.Keys;
  }

  /** What the flow may do: archiving comes with an inactive state, or finds no entry. */
  ghost predicate Archivable(s: Store, op: Catalog.Op) {
    op.Archive? ==> op.state == Inactive || !PointedTo(s, op.key)
  }

  /** A published descriptor, a restated one and another lifespan never hurt. */
  lemma PerformKeepsHonest(s: Store, op: Catalog.Op, owners: Owners)
    requires Joined(s, owners) && Honest(s) && Archivable(s, op)
    ensures Honest(Catalog.Perform(s, op))
  {
    if op.Archive? {
      ArchiveKeepsHonest(s, op.key, op.state, owners);
    } else {
      var s' := Catalog.Perform(s, op);
      forall pk | pk in s'.tokens
        ensures EntryHonest(s'.platform, pk, s'.tokens[pk])
      {
        assert EntryJoins(s.platform, pk, s.tokens[pk], owners) && EntryHonest(s.platform, pk, s.tokens[pk]);
      }
    }
  }

  lemma StaysArchivable(s: Store, op: Catalog.Op, other: Catalog.Op)
    requires Archivable(s, op)
    ensures Archivable(Catalog.Perform(s, other), op)
  {
    var s' := Catalog.Perform(s, other);
    assert forall pk <- s'.tokens :: pk in s.tokens && s'.tokens[pk].descriptor == s.tokens[pk].descriptor;
  }

  lemma {:induction false} PerformAllKeepsHonest(s: Store, ops: seq<Catalog.Op>, owners: Owners)
    requires Joined(s, owners) && Honest(s) && forall op <- ops :: Archivable(s, op)
    ensures Honest(Catalog.PerformAll(s, ops))
    decreases |ops|
  {
    if ops != [] {
      PerformKeepsJoin(s, ops[0], owners);
      PerformKeepsHonest(s, ops[0], owners);
      forall op | op in ops[1..] ensures Archivable(Catalog.Perform(s, ops[0]), op) { StaysArchivable(s, op, ops[0]); }
      PerformAllKeepsHonest(Catalog.Perform(s, ops[0]), ops[1..], owners);
    }
  }

  /** Archiving with an active state leaves each entry of the descriptor looking active without a row. */
  lemma ArchivedActiveIsDishonest(s: Store, ops: seq<Catalog.Op>, op: Catalog.Op, pk: TokenPK, owners: Owners)
    requires Joined(s, owners) && Catalog.DistinctKeys(ops) && op in ops && op.Archive? && op.state == Active
    requires pk in s.tokens && s.tokens[pk].descriptor == Some(op.key)
    ensures !Honest(Catalog.PerformAll(s, ops))
  {
    var s' := Catalog.PerformAll(s, ops);
    PerformAllKeepsJoin(s, ops, owners);
    Catalog.FlowOnEntry(s, ops, op, pk);
    ArchivedHasNoRow(s, ops, op);
    assert EntryJoins(s'.platform, pk, s'.tokens[pk], owners);
    assert AgreedDescriptor(s'.platform, s'.tokens[pk]) == Some(op.key);
    assert !EntryHonest(s'.platform, pk, s'.tokens[pk]);
  }

  lemma ArchivedHasNoRow(s: Store, ops: seq<Catalog.Op>, op: Catalog.Op)
    requires Catalog.DistinctKeys(ops) && op in ops && op.Archive?
    ensures op.key !in Catalog.PerformAll(s, ops).platform.catalog
  {
    Catalog.RowAfterAll(s, ops, op.key);
    Catalog.OpOnIs(ops, op.key);
  }

  /** A whole catalog message keeps the entries honest exactly when each of its flows may be performed. */
  lemma MessageKeepsHonestIff(s: Store, ops: seq<Catalog.Op>, owners: Owners)
    requires Joined(s, owners) && Honest(s) && Catalog.DistinctKeys(ops)
    ensures Honest(Catalog.PerformAll(s, ops)) <==> forall op <- ops :: Archivable(s, op)
  {
    if forall op <- ops :: Archivable(s, op) {
      PerformAllKeepsHonest(s, ops, owners);
    } else {
      var op :| op in ops && !Archivable(s, op);
      var pk :| pk in s.tokens && s.tokens[pk].descriptor == Some(op.key);
      ArchivedActiveIsDishonest(s, ops, op, pk, owners);
    }
  }

  lemma RestateAgreementKeepsHonest(s: Store, a: Agreements.Agreement, action: Agreements.Action, owners: Owners)
    requires Joined(s, owners) && Honest(s) && !action.Replace?
    requires Agreements.Act(s, a, action).Ok?
    ensures Honest(Agreements.Act(s, a, action).value)
  {
    var s' := Agreements.Act(s, a, action).value;
    forall pk | pk in s'.tokens
      ensures EntryHonest(s'.platform, pk, s'.tokens[pk])
    {
      assert EntryJoins(s.platform, pk, s.tokens[pk], owners) && EntryHonest(s.platform, pk, s.tokens[pk]);
    }
  }

  lemma AgreementDeletionKeepsHonest(s: Store, id: Id, version: nat)
    requires Honest(s)
    ensures Honest(Agreements.DeleteV1(s, id, version))
  {
    var s' := Agreements.DeleteV1(s, id, version);
    forall pk | pk in s'.tokens
      ensures EntryHonest(s'.platform, pk, s'.tokens[pk])
    {
      assert EntryHonest(s.platform, pk, s.tokens[pk]);
    }
  }

  /** An entry of the activated purpose: joined anew, or left to rows that are not there. */
  lemma ActivatedIsHonest(pf: Platform, p: Purposes.Purpose, pk: TokenPK, e: Entry, state: ItemState, versionId: Id)
    requires p.id in pf.purposes && pf.purposes[p.id].Owner() == p.Owner()
    requires pk.ClientKidPurpose? && pk.purposeId == p.id && FollowsAgreement(pf, e)
    requires e.consumerEservice.Some? ==> e.consumerEservice.value == p.Owner()
    requires EntryHonest(pf, pk, e)
    ensures EntryHonest(pf, pk, Apply(Purposes.ActivationPatch(pf, p, state, versionId), e))
  {
  }

  lemma ActivationKeepsHonest(s: Store, p: Purposes.Purpose, version: nat, owners: Owners)
    requires Joined(s, owners) && Honest(s) && p.Owner() == owners(p.id)
    requires Purposes.HandleV2(s, Purposes.PurposeActivated, p, version).Ok?
    ensures Honest(Purposes.HandleV2(s, Purposes.PurposeActivated, p, version).value)
  {
    var s' := Purposes.HandleV2(s, Purposes.PurposeActivated, p, version).value;
    var state, live := Purposes.StateOf(p.versions), Purposes.FindLive(p.versions);
    forall pk | pk in s'.tokens ensures EntryHonest(s'.platform, pk, s'.tokens[pk]) {
      var e := s.tokens[pk];
      assert EntryJoins(s.platform, pk, e, owners) && EntryHonest(s.platform, pk, e);
      if s'.tokens[pk] != e {
        assert EntryHonest(s'.platform, pk, e) && FollowsAgreement(s'.platform, e);
        assert Purposes.ActivationPatch(s'.platform, p, state, live.value.id)
                 == Purposes.ActivationPatch(s.platform, p, state, live.value.id);
        ActivatedIsHonest(s'.platform, p, pk, e, state, live.value.id);
      }
    }
  }

  lemma VersionChangeKeepsHonest(s: Store, versionId: Id, p: Purposes.Purpose, version: nat, owners: Owners)
    requires Joined(s, owners) && Honest(s) && p.Owner() == owners(p.id)
    ensures var r := Purposes.HandleV2(s, Purposes.PurposeVersionChanged(versionId), p, version);
            r.Ok? && Honest(r.value)
  {
    var s' := Purposes.HandleV2(s, Purposes.PurposeVersionChanged(versionId), p, version).value;
    forall pk | pk in s'.tokens ensures EntryHonest(s'.platform, pk, s'.tokens[pk]) {
      assert EntryJoins(s.platform, pk, s.tokens[pk], owners) && EntryHonest(s.platform, pk, s.tokens[pk]);
    }
  }

  lemma PurposeKeepsHonest(s: Store, event: Purposes.EventV2, p: Purposes.Purpose, version: nat, owners: Owners)
    requires Joined(s, owners) && Honest(s) && p.Owner() == owners(p.id)
    requires Purposes.HandleV2(s, event, p, version).Ok? && !event.PurposeArchived?
    ensures Honest(Purposes.HandleV2(s, event, p, version).value)
  {
    match event
    case PurposeActivated => ActivationKeepsHonest(s, p, version, owners);
    case PurposeVersionChanged(versionId) => VersionChangeKeepsHonest(s, versionId, p, version, owners);
    case OtherV2 =>
  }

  lemma AuthorizationKeepsHonest(s: Store, s': Store)
    requires Honest(s) && SameJoinedRows(s.platform, s'.platform)
    requires forall pk <- s'.tokens :: WrittenByAuthorization(s, pk, s'.tokens[pk])
    ensures Honest(s')
  {
    forall pk | pk in s'.tokens
      ensures EntryHonest(s'.platform, pk, s'.tokens[pk])
    {
      if pk in s.tokens { assert EntryHonest(s.platform, pk, s.tokens[pk]); }
    }
  }

  // ---- whole runs ----

  /** What the source leaves to its callers: activations and upgrades name a descriptor with a row, and archived
      e-services, descriptors and purposes arrive without an active state, unless there is no entry to mislead. */
  ghost predicate Orderly(s: Store, m: Message) {
    match m.event
    case AgreementV1(event, a) =>
      MayAct(s, a, Agreements.DecideV1(Lookup(s.platform.agreements, a.Key()), event, a, m.version))
    case AgreementV2(event, a) =>
      MayAct(s, a, Agreements.DecideV2(Lookup(s.platform.agreements, a.Key()), event, a, m.version))
    case CatalogV2(event, es, asyncOn) =>
      var ops := Catalog.OpsV2(event, es, m.version, asyncOn);
      ops.Ok? ==> forall op <- ops.value :: Archivable(s, op)
    case PurposeV2(event, p) =>
      event.PurposeArchived? ==> Purposes.StateOf(p.versions) == Inactive
                                 || (forall pk <- s.tokens :: pk.ClientKidPurpose? ==> pk.purposeId != p.id)
    case _ => true
  }

  ghost predicate MayAct(s: Store, a: Agreements.Agreement, action: Agreements.Action) {
    action.Replace? ==> a.Descriptor() in s.platform.catalog || !LooksActive(s, a.Key())
  }

  /** Messages name each descriptor once. */
  predicate Tidy(m: Message) {
    m.event.CatalogV2? ==>
      var ops := Catalog.OpsV2(m.event.cat2, m.event.eservice, m.version, m.event.asyncOn);
      ops.Ok? ==> Catalog.DistinctKeys(ops.value)
  }

  lemma AgreementActionKeepsHonestIff(s: Store, a: Agreements.Agreement, action: Agreements.Action, owners: Owners)
    requires Joined(s, owners) && Honest(s) && ActsOn(a, action) && Agreements.Act(s, a, action).Ok?
    ensures Honest(Agreements.Act(s, a, action).value) <==> MayAct(s, a, action)
  {
    if action.Replace? {
      MoveKeepsHonest(s, a, action.row, owners);
    } else {
      RestateAgreementKeepsHonest(s, a, action, owners);
    }
  }

  /** Each message keeps the entries honest exactly when it is orderly. */
  lemma StepKeepsHonestIff(s: Store, m: Message, owners: Owners)
    requires Joined(s, owners) && Honest(s) && WellFormed(m, owners) && Tidy(m)
    ensures Honest(Step(s, m)) <==> Orderly(s, m)
  {
    match m.event
    case AgreementV1(event, a) =>
      var action := Agreements.DecideV1(Lookup(s.platform.agreements, a.Key()), event, a, m.version);
      if Agreements.Act(s, a, action).Ok? { AgreementActionKeepsHonestIff(s, a, action, owners); }
    case AgreementV2(event, a) =>
      var action := Agreements.DecideV2(Lookup(s.platform.agreements, a.Key()), event, a, m.version);
      if Agreements.Act(s, a, action).Ok? { AgreementActionKeepsHonestIff(s, a, action, owners); }
    case CatalogV2(event, es, asyncOn) =>
      var ops := Catalog.OpsV2(event, es, m.version, asyncOn);
      if ops.Ok? { MessageKeepsHonestIff(s, ops.value, owners); }
    case _ => OtherStepKeepsHonestIff(s, m, owners);
  }

  lemma OtherStepKeepsHonestIff(s: Store, m: Message, owners: Owners)
    requires Joined(s, owners) && Honest(s) && WellFormed(m, owners)
    requires !m.event.AgreementV1? && !m.event.AgreementV2? && !m.event.CatalogV2?
    ensures Honest(Step(s, m)) <==> Orderly(s, m)
  {
    var r := Handle(s, m);
    match m.event
    case AgreementDeletedV1(id) => AgreementDeletionKeepsHonest(s, id, m.version);
    case CatalogV1(es, d) => PerformAllKeepsHonest(s, Catalog.OpsV1(es, d, m.version), owners);
    case PurposeV2(event, p) =>
      if event.PurposeArchived? {
        PurposeArchiveKeepsHonest(s, p, event.versionId, m.version);
      } else if r.Ok? {
        PurposeKeepsHonest(s, event, p, m.version, owners);
      }
    case AuthorizationV1(event) =>
      if r.Ok? {
        forall pk | pk in r.value.tokens { AuthorizationV1Writes(s, event, m.version, pk); }
        AuthorizationV1Rows(s, event, m.version);
        AuthorizationKeepsHonest(s, r.value);
      }
    case AuthorizationV2(event) =>
      if r.Ok? {
        forall pk | pk in r.value.tokens { AuthorizationV2Writes(s, event, m.version, pk); }
        AuthorizationV2Rows(s, event, m.version);
        AuthorizationKeepsHonest(s, r.value);
      }
  }

  ghost predicate OrderlyAt(s: Store, messages: seq<Message>, i: nat)
    requires i < |messages|
  {
    Orderly(Run(s, messages[..i]), messages[i])
  }

  ghost predicate OrderlyRun(s: Store, messages: seq<Message>) {
    forall i: nat | i < |messages| :: OrderlyAt(s, messages, i)
  }

  ghost predicate HonestAt(s: Store, messages: seq<Message>, n: nat)
    requires n <= |messages|
  {
    Honest(Run(s, messages[..n]))
  }

  /** Honest after every prefix. */
  ghost predicate HonestRun(s: Store, messages: seq<Message>) {
    forall n: nat | n <= |messages| :: HonestAt(s, messages, n)
  }

  lemma NextState(s: Store, messages: seq<Message>, i: nat)
    requires i < |messages|
    ensures Run(s, messages[..i + 1]) == Step(Run(s, messages[..i]), messages[i])
  {
    assert messages[..i + 1][..i] == messages[..i];
  }

  /** One message of a run. */
  lemma RunStepHonestIff(s: Store, messages: seq<Message>, i: nat, owners: Owners)
    requires Joined(s, owners) && i < |messages| && forall m <- messages :: WellFormed(m, owners) && Tidy(m)
    requires HonestAt(s, messages, i)
    ensures HonestAt(s, messages, i + 1) <==> OrderlyAt(s, messages, i)
  {
    assert forall m <- messages[..i] :: m in messages;
    RunKeepsJoin(s, messages[..i], owners);
    NextState(s, messages, i);
    StepKeepsHonestIff(Run(s, messages[..i]), messages[i], owners);
  }

  lemma {:induction false} OrderlyIsHonest(s: Store, messages: seq<Message>, n: nat, owners: Owners)
    requires Joined(s, owners) && Honest(s) && n <= |messages|
    requires OrderlyRun(s, messages) && forall m <- messages :: WellFormed(m, owners) && Tidy(m)
    ensures HonestAt(s, messages, n)
    decreases n
  {
    if n > 0 {
      OrderlyIsHonest(s, messages, n - 1, owners);
      assert OrderlyAt(s, messages, n - 1);
      RunStepHonestIff(s, messages, n - 1, owners);
    }
  }

  /** The entries are honest throughout a run exactly when every message of it is orderly. */
  lemma HonestRunIff(s: Store, messages: seq<Message>, owners: Owners)
    requires Joined(s, owners) && Honest(s) && forall m <- messages :: WellFormed(m, owners) && Tidy(m)
    ensures HonestRun(s, messages) <==> OrderlyRun(s, messages)
  {
    if OrderlyRun(s, messages) {
      forall n: nat | n <= |messages| ensures HonestAt(s, messages, n) { OrderlyIsHonest(s, messages, n, owners); }
    }
    if HonestRun(s, messages) {
      forall i: nat | i < |messages| ensures OrderlyAt(s, messages, i) {
        assert HonestAt(s, messages, i) && HonestAt(s, messages, i + 1);
        RunStepHonestIff(s, messages, i, owners);
      }
    }
  }

  /** In every reachable state the decision on an entry is right, error by error, exactly when no missing row
      misleads it. */
  lemma CachedDecisionIsRightIff(messages: seq<Message>, owners: Owners, pk: TokenPK)
    requires forall m <- messages :: WellFormed(m, owners)
    requires pk in Run(EMPTY, messages).tokens && pk.ClientKidPurpose?
    ensures var s := Run(EMPTY, messages);
            Right(s.tokens[pk], Retrieve(s.platform, pk.purposeId)) <==>
              NotMisled(s.platform, pk.purposeId, s.tokens[pk])
  {
    RunKeepsJoin(EMPTY, messages, owners);
    DecisionRightIff(Run(EMPTY, messages), owners, pk);
  }

  /** After orderly messages no row misleads: an entry is accepted exactly when its purpose, agreement and
      descriptor rows exist and are all active. */
  lemma CachedDecisionIsRight(messages: seq<Message>, owners: Owners, pk: TokenPK)
    requires OrderlyRun(EMPTY, messages) && forall m <- messages :: WellFormed(m, owners) && Tidy(m)
    requires pk in Run(EMPTY, messages).tokens && pk.ClientKidPurpose?
    ensures var s := Run(EMPTY, messages); Right(s.tokens[pk], Retrieve(s.platform, pk.purposeId))
  {
    OrderlyIsHonest(EMPTY, messages, |messages|, owners);
    assert messages[..|messages|] == messages;
    HonestIsNotMisled(Run(EMPTY, messages), pk);
    CachedDecisionIsRightIff(messages, owners, pk);
  }
}
