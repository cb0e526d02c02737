/** The catalog consumer: what one message does to both tables when handlers run one at a time. */
module CatalogWriter {
  import opened Basics
  import opened TokenKeys
  import opened PlatformModel

  datatype DescriptorState =
    | Draft | Published | Deprecated | Suspended | Archived | WaitingForApproval | Archiving | ArchivingSuspended

  datatype Descriptor = Descriptor(id: Id, version: int, state: DescriptorState, audience: seq<string>, lifespan: nat)

  datatype Eservice = Eservice(id: Id, asyncExchange: Option<bool>, descriptors: seq<Descriptor>)

  function ItemStateOf(state: DescriptorState): ItemState {
    match state
    case Published | Deprecated | Archiving => Active
    case Suspended | ArchivingSuspended | Archived | WaitingForApproval | Draft => Inactive
  }

  function FindById(ds: seq<Descriptor>, id: Id): Option<Descriptor> {
    if ds == [] then None else if ds[0].id == id then Some(ds[0]) else FindById(ds[1..], id)
  }

  function FindByVersion(ds: seq<Descriptor>, version: int): Option<Descriptor> {
    if ds == [] then None else if ds[0].version == version then Some(ds[0]) else FindByVersion(ds[1..], version)
  }

  function RowOf(d: Descriptor, asyncExchange: Option<bool>, version: nat): CatalogRow {
    CatalogRow(ItemStateOf(d.state), d.audience, d.lifespan, asyncExchange, version)
  }

  predicate IsStale(row: Option<CatalogRow>, version: nat) {
    row.Some? && row.value.version > version
  }

  /** What a message asks of one descriptor: first its row, then the entries that point to it. */
  datatype Op =
    | Publish(key: EserviceDescriptor, row: CatalogRow)                        // upsert the row, rewrite the fields
    | Restate(key: EserviceDescriptor, state: ItemState, version: nat)         // only on an existing row
    | Archive(key: EserviceDescriptor, state: ItemState)                       // delete the row, set the state
    | Requota(key: EserviceDescriptor, lifespan: nat, version: nat)            // only on a row with another lifespan

  predicate DistinctKeys(ops: seq<Op>) {
    forall i, j | 0 <= i < j < |ops| :: ops[i].key != ops[j].key
  }

  /** A flow and those that follow it are on distinct descriptors. */
  predicate Leads(op: Op, later: seq<Op>) {
    DistinctKeys(later) && forall x <- later :: x.key != op.key
  }

  lemma LeadsIs(op: Op, later: seq<Op>)
    ensures DistinctKeys([op] + later) <==> Leads(op, later)
  {
    var ops := [op] + later;
    assert forall i | 0 <= i < |later| :: ops[i + 1] == later[i];
    if DistinctKeys(ops) {
      forall x | x in later ensures x.key != op.key {
        var i :| 0 <= i < |later| && later[i] == x;
        assert ops[0].key != ops[i + 1].key;
      }
    }
  }

  lemma LeadsOn(op: Op, later: seq<Op>)
    requires Leads(op, later) && later != []
    ensures Leads(later[0], later[1..])
  {
    assert [later[0]] + later[1..] == later;
    LeadsIs(later[0], later[1..]);
  }

  /** The flows of one message: on distinct descriptors, and all but the first archive. */
  predicate IsMessage(ops: seq<Op>) {
    ops != [] && DistinctKeys(ops) && forall i | 0 < i < |ops| :: ops[i].Archive?
  }

  /** The guard that the handler evaluates on the stored row. */
  predicate Proceeds(op: Op, row: Option<CatalogRow>) {
    match op
    case Publish(_, r) => !IsStale(row, r.version)
    case Restate(_, _, version) => row.Some? && !IsStale(row, version)
    case Archive(_, _) => true
    case Requota(_, lifespan, version) => row.Some? && !IsStale(row, version) && row.value.lifespan != lifespan
  }

  /** The row once written. */
  function WrittenRow(op: Op, row: Option<CatalogRow>): Option<CatalogRow>
    requires Proceeds(op, row)
  {
    match op
    case Publish(_, r) => Some(r)
    case Restate(_, state, version) => Some(row.value.(state := state, version := version))
    case Archive(_, _) => None
    case Requota(_, lifespan, version) => Some(row.value.(lifespan := lifespan, version := version))
  }

  /** The update of the entries that point to the descriptor. */
  function EntryPatch(op: Op): Patch {
    match op
    case Publish(_, r) => SetDescriptorInfo(r.state, r.lifespan, r.audience)
    case Restate(key, state, _) => SetDescriptorState(state, key)
    case Archive(key, state) => SetDescriptorState(state, key)
    case Requota(_, lifespan, _) => SetLifespan(lifespan)
  }

  function SetRow(pf: Platform, key: EserviceDescriptor, row: Option<CatalogRow>): Platform {
    pf.(catalog := if row.Some? then pf.catalog[key := row.value] else pf.catalog - {key})
  }

  function Perform(s: Store, op: Op): Store {
    var row := Lookup(s.platform.catalog, op.key);
    if !Proceeds(op, row) then s
    else Store(SetRow(s.platform, op.key, WrittenRow(op, row)),
               PatchAll(s.tokens, ByDescriptor(op.key), EntryPatch(op)))
  }

  function PerformAll(s: Store, ops: seq<Op>): Store
    decreases |ops|
  {
    if ops == [] then s else PerformAll(Perform(s, ops[0]), ops[1..])
  }

  // ---- what a message leaves on one descriptor ----

  /** The flow of a message on a descriptor. */
  function OpOn(ops: seq<Op>, key: EserviceDescriptor): Option<Op> {
    if ops == [] then None else if ops[0].key == key then Some(ops[0]) else OpOn(ops[1..], key)
  }

  lemma OpOnIs(ops: seq<Op>, key: EserviceDescriptor)
    requires DistinctKeys(ops)
    ensures var x := OpOn(ops, key);
            && (x.Some? ==> x.value in ops && x.value.key == key)
            && forall op <- ops | op.key == key :: x == Some(op)
  {
    if ops != [] {
      assert forall i | 0 <= i < |ops| - 1 :: ops[1..][i] == ops[i + 1];
      OpOnIs(ops[1..], key);
      if ops[0].key == key {
        assert forall i | 0 < i < |ops| :: ops[i].key != ops[0].key;
      }
    }
  }

  /** The row of a descriptor after a message that runs on its own. */
  function RowAfter(pf: Platform, ops: seq<Op>, key: EserviceDescriptor): Option<CatalogRow> {
    var row := Lookup(pf.catalog, key);
    match OpOn(ops, key)
    case None => row
    case Some(op) => if Proceeds(op, row) then WrittenRow(op, row) else row
  }

  lemma {:induction false} RowAfterAll(s: Store, ops: seq<Op>, key: EserviceDescriptor)
    requires DistinctKeys(ops)
    ensures Lookup(PerformAll(s, ops).platform.catalog, key) == RowAfter(s.platform, ops, key)
    decreases |ops|
  {
    if ops != [] {
      assert forall i | 0 <= i < |ops| - 1 :: ops[1..][i] == ops[i + 1];
      RowAfterAll(Perform(s, ops[0]), ops[1..], key);
      OpOnIs(ops, key);
      OpOnIs(ops[1..], key);
    }
  }

  /** What a message does to one entry: the update of the flow on its descriptor, if that proceeds. */
  function EntryAfter(pf: Platform, ops: seq<Op>, e: Entry): Entry {
    match if e.descriptor.Some? then OpOn(ops, e.descriptor.value) else None
    case None => e
    case Some(op) => if Proceeds(op, Lookup(pf.catalog, op.key)) then Apply(EntryPatch(op), e) else e
  }

  lemma {:induction false} EntryAfterAll(s: Store, ops: seq<Op>, pk: TokenPK)
    requires DistinctKeys(ops) && pk in s.tokens
    ensures pk in PerformAll(s, ops).tokens
              && PerformAll(s, ops).tokens[pk] == EntryAfter(s.platform, ops, s.tokens[pk])
    decreases |ops|
  {
    if ops != [] {
      var s', e := Perform(s, ops[0]), s.tokens[pk];
      assert forall i | 0 <= i < |ops| - 1 :: ops[1..][i] == ops[i + 1];
      EntryAfterAll(s', ops[1..], pk);
      assert s'.tokens[pk].descriptor == e.descriptor;
      if e.descriptor.Some? {
        OpOnIs(ops, e.descriptor.value);
        OpOnIs(ops[1..], e.descriptor.value);
      }
    }
  }

  /** The rows of other kinds, and which entries there are, never change. */
  lemma {:induction false} OnlyDescriptors(s: Store, ops: seq<Op>)
    ensures var s' := PerformAll(s, ops);
            && s'.platform.purposes == s.platform.purposes && s'.platform.agreements == s.platform.agreements
            && s'.platform.clients == s.platform.clients && s'.tokens.Keys == s.tokens.Keys
    decreases |ops|
  {
    if ops != [] { OnlyDescriptors(Perform(s, ops[0]), ops[1..]); }
  }

  /** Flows on other descriptors leave the entry alone. */
  lemma {:induction false} OtherFlows(s: Store, ops: seq<Op>, pk: TokenPK)
    requires pk in s.tokens && forall op <- ops :: s.tokens[pk].descriptor != Some(op.key)
    ensures pk in PerformAll(s, ops).tokens && PerformAll(s, ops).tokens[pk] == s.tokens[pk]
    decreases |ops|
  {
    if ops != [] { OtherFlows(Perform(s, ops[0]), ops[1..], pk); }
  }

  /** One flow of a message on the entry's own descriptor, the others on other ones. */
  lemma {:induction false} FlowOnEntry(s: Store, ops: seq<Op>, op: Op, pk: TokenPK)
    requires DistinctKeys(ops) && op in ops && op.Archive?
    requires pk in s.tokens && s.tokens[pk].descriptor == Some(op.key)
    ensures pk in PerformAll(s, ops).tokens
    ensures var e := PerformAll(s, ops).tokens[pk]; e.descriptorState == Some(op.state) && e.descriptor == Some(op.key)
    decreases |ops|
  {
    var s' := Perform(s, ops[0]);
    assert forall i | 0 <= i < |ops| - 1 :: ops[1..][i] == ops[i + 1];
    if op in ops[1..] {
      assert ops[0].key != op.key;
      FlowOnEntry(s', ops[1..], op, pk);
    } else {
      OtherFlows(s', ops[1..], pk);
    }
  }

  // ---- messages ----

  predicate DistinctIds(ds: seq<Descriptor>) {
    forall i, j | 0 <= i < j < |ds| :: ds[i].id != ds[j].id
  }

  datatype EventV2 =
    | DescriptorPublished(descriptorId: Id)
    | DescriptorActivatedOrSuspended(descriptorId: Id)
    | DescriptorUnarchived(descriptorId: Id)
    | DescriptorArchived(descriptorId: Id)
    | EserviceArchived
    | QuotasUpdated(descriptorId: Id)
    | OtherV2

  function ArchiveOf(eserviceId: Id, d: Descriptor): Op {
    Archive(EserviceDescriptor(eserviceId, d.id), ItemStateOf(d.state))
  }

  function ArchiveOps(eserviceId: Id, ds: seq<Descriptor>): seq<Op> {
    if ds == [] then [] else [ArchiveOf(eserviceId, ds[0])] + ArchiveOps(eserviceId, ds[1..])
  }

  /** The flows for the published descriptor and for the archived one before it. */
  function PublishOps(es: Eservice, d: Descriptor, publish: Op): seq<Op> {
    match FindByVersion(es.descriptors, d.version - 1)
    case Some(previous) => if previous.state == Archived then [publish, ArchiveOf(es.id, previous)] else [publish]
    case None => [publish]
  }

  /** The branches of `handleMessageV2` on the descriptor that the message names. */
  function DescriptorOps(event: EventV2, es: Eservice, d: Descriptor, version: nat, asyncOn: bool): seq<Op> {
    var key := EserviceDescriptor(es.id, d.id);
    var publish := Publish(key, RowOf(d, if asyncOn then es.asyncExchange else None, version));
    match event
    case DescriptorPublished(_) => PublishOps(es, d, publish)
    case DescriptorActivatedOrSuspended(_) => [Restate(key, ItemStateOf(d.state), version)]
    case DescriptorUnarchived(_) => [publish]
    case DescriptorArchived(_) => [ArchiveOf(es.id, d)]
    case QuotasUpdated(_) => [Requota(key, d.lifespan, version)]
    case EserviceArchived => []
    case OtherV2 => []
  }

  /** `handleMessageV2`; `asyncOn` is the async-exchange feature flag. */
  function OpsV2(event: EventV2, es: Eservice, version: nat, asyncOn: bool): Result<seq<Op>> {
    if event.EserviceArchived? then Ok(ArchiveOps(es.id, es.descriptors))
    else if event.OtherV2? then Ok([])
    else
      match FindById(es.descriptors, event.descriptorId)
      case None => Failed
      case Some(d) => Ok(DescriptorOps(event, es, d, version, asyncOn))
  }

  function HandleV2(s: Store, event: EventV2, es: Eservice, version: nat, asyncOn: bool): Result<Store> {
    match OpsV2(event, es, version, asyncOn)
    case Ok(ops) => Ok(PerformAll(s, ops))
    case Failed => Failed
  }

  /** V1 EServiceDescriptorUpdated: the descriptor's state selects the branch. */
  function OpsV1(eserviceId: Id, d: Descriptor, version: nat): seq<Op> {
    var key := EserviceDescriptor(eserviceId, d.id);
    match d.state
    case Published | Deprecated => [Publish(key, RowOf(d, None, version))]
    case Suspended => [Restate(key, ItemStateOf(d.state), version)]
    case Archived => [ArchiveOf(eserviceId, d)]
    case _ => []
  }

  function HandleV1(s: Store, eserviceId: Id, d: Descriptor, version: nat): Store {
    PerformAll(s, OpsV1(eserviceId, d, version))
  }
}
