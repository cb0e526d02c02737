/** The agreement consumer: what one message does to both tables when handlers run one at a time. */
module AgreementWriter {
  import opened Basics
  import opened PlatformModel

  datatype AgreementState =
    | Draft | Suspended | Archived | Pending | ActiveAgreement | MissingCertifiedAttributes | Rejected

  /** Stamps are instants; a missing stamp is `None`. */
  datatype Agreement = Agreement(
    id: Id, eserviceId: Id, descriptorId: Id, producerId: Id, consumerId: Id, state: AgreementState,
    createdAt: int, activation: Option<int>, upgrade: Option<int>)
  {
    function Key(): ConsumerEservice { ConsumerEservice(consumerId, eserviceId) }
    function Descriptor(): EserviceDescriptor { EserviceDescriptor(eserviceId, descriptorId) }
  }

  function ItemStateOf(state: AgreementState): ItemState {
    if state.ActiveAgreement? then Active else Inactive
  }

  /** `extractAgreementTimestamp` */
  function Timestamp(a: Agreement): int {
    if a.upgrade.Some? then a.upgrade.value
    else if a.activation.Some? then a.activation.value
    else a.createdAt
  }

  predicate IsLatest(row: Option<AgreementRow>, timestamp: int) {
    row.None? || row.value.timestamp <= timestamp
  }

  /** A more recent version of the same agreement was handled already. */
  predicate IsStale(row: Option<AgreementRow>, a: Agreement, version: nat) {
    row.Some? && row.value.version > version && row.value.agreementId == a.id
  }

  function RowOf(a: Agreement, timestamp: int, version: nat): AgreementRow {
    AgreementRow(ItemStateOf(a.state), version, a.id, timestamp, a.descriptorId, a.producerId)
  }

  /** What a message asks of the row of its consumer and e-service. */
  datatype Action =
    | Skip
    | Replace(row: AgreementRow)                    // upsert the row, then move the entries
    | Restate(state: ItemState, version: nat)       // set the state in the row, then in the entries
    | Retire(state: ItemState, version: nat)        // set the state in the entries, then in the row
    | Throw

  datatype EventV2 =
    | AgreementActivated
    | AgreementSuspendedOrUnsuspended
    | AgreementUpgraded
    | AgreementArchived
    | OtherV2

  /** The guards of `handleMessageV2`. */
  function DecideV2(row: Option<AgreementRow>, event: EventV2, a: Agreement, version: nat): Action {
    match event
    case AgreementActivated =>
      if a.activation.None? then Throw
      else if !IsLatest(row, a.activation.value) || IsStale(row, a, version) then Skip
      else Replace(RowOf(a, a.activation.value, version))
    case AgreementSuspendedOrUnsuspended =>
      if !IsLatest(row, Timestamp(a)) || row.None? || IsStale(row, a, version) then Skip
      else Restate(ItemStateOf(a.state), version)
    case AgreementUpgraded =>
      if a.upgrade.None? then Throw
      else if !IsLatest(row, a.upgrade.value) || IsStale(row, a, version) then Skip
      else if !a.state.ActiveAgreement? && !a.state.Suspended? then Skip
      else Replace(RowOf(a, a.upgrade.value, version))
    case AgreementArchived =>
      if IsLatest(row, Timestamp(a)) && row.Some? && row.value.agreementId == a.id
      then Retire(ItemStateOf(a.state), version)
      else Skip
    case OtherV2 => Skip
  }

  datatype EventV1 =
    | ActivatedOrSuspendedV1
    | UpdatedV1
    | AddedV1
    | DeactivatedV1
    | OtherV1

  /** The guards of `handleMessageV1`, deletion by agreement id aside. */
  function DecideV1(row: Option<AgreementRow>, event: EventV1, a: Agreement, version: nat): Action {
    var replace :=
      if !IsLatest(row, Timestamp(a)) || IsStale(row, a, version) then Skip
      else Replace(RowOf(a, Timestamp(a), version));
    var archive :=
      if IsLatest(row, Timestamp(a)) && row.Some? && row.value.agreementId == a.id
      then Retire(ItemStateOf(a.state), version)
      else Skip;
    match event
    case ActivatedOrSuspendedV1 => replace
    case UpdatedV1 =>
      if a.state.ActiveAgreement? || a.state.Suspended? then replace
      else if a.state.Archived? then archive
      else Skip
    case AddedV1 => if a.state.ActiveAgreement? || a.state.Suspended? then replace else Skip
    case DeactivatedV1 => archive
    case OtherV1 => Skip
  }

  /** The row after an action on it. */
  function ActOnRow(row: Option<AgreementRow>, action: Action): Option<AgreementRow> {
    match action
    case Replace(r) => Some(r)
    case Restate(state, version) => if row.Some? then Some(row.value.(state := state, version := version)) else None
    case Retire(state, version) => if row.Some? then Some(row.value.(state := state, version := version)) else None
    case Skip => row
    case Throw => row
  }

  /** The update of the entries of a consumer and e-service when `a` becomes their agreement. */
  function MovePatch(a: Agreement, pf: Platform): Patch {
    MoveAgreement(a.id, ItemStateOf(a.state), a.producerId, a.Descriptor(), Lookup(pf.catalog, a.Descriptor()))
  }

  function SetRow(pf: Platform, key: ConsumerEservice, row: AgreementRow): Platform {
    pf.(agreements := pf.agreements[key := row])
  }

  function Act(s: Store, a: Agreement, action: Action): Result<Store> {
    match action
    case Throw => Failed
    case Skip => Ok(s)
    case Replace(row) =>
      Ok(Store(SetRow(s.platform, a.Key(), row), PatchAll(s.tokens, ByAgreement(a.Key()), MovePatch(a, s.platform))))
    case Restate(state, _) =>
      if a.Key() !in s.platform.agreements then Failed
      else
        var row := ActOnRow(Lookup(s.platform.agreements, a.Key()), action).value;
        Ok(Store(SetRow(s.platform, a.Key(), row), PatchAll(s.tokens, ByAgreement(a.Key()), SetAgreementState(state))))
    case Retire(state, _) =>
      if a.Key() !in s.platform.agreements then Failed
      else
        var row := ActOnRow(Lookup(s.platform.agreements, a.Key()), action).value;
        Ok(Store(SetRow(s.platform, a.Key(), row), PatchAll(s.tokens, ByAgreement(a.Key()), SetAgreementState(state))))
  }

  function HandleV2(s: Store, event: EventV2, a: Agreement, version: nat): Result<Store> {
    Act(s, a, DecideV2(Lookup(s.platform.agreements, a.Key()), event, a, version))
  }

  function HandleV1(s: Store, event: EventV1, a: Agreement, version: nat): Result<Store> {
    Act(s, a, DecideV1(Lookup(s.platform.agreements, a.Key()), event, a, version))
  }

  /** V1 AgreementDeleted: rows and entries are found by agreement id. */
  function DeleteV1(s: Store, agreementId: Id, version: nat): Store {
    Store(
      s.platform.(agreements := map k | k in s.platform.agreements ::
        if s.platform.agreements[k].agreementId == agreementId
        then s.platform.agreements[k].(state := Inactive, version := version)
        else s.platform.agreements[k]),
      PatchAll(s.tokens, ByAgreementId(agreementId), SetAgreementState(Inactive)))
  }
}
