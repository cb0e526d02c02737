/**
 The consumers as small-step programs: one DynamoDB call per step, interleaved in any order.

 Nothing locks the tables. An authorization handler that adds entries reads the rows, puts the entry,
 reads the rows again and patches what changed; an agreement or catalog handler writes its row and then
 walks the index page by page, updating one entry at a time.
 */
module RaceModel {
  import opened Basics
  import opened TokenKeys
  import opened PlatformModel
  import Agreements = AgreementWriter
  import Catalog = CatalogWriter

  // ---- adding one entry: V2 ClientKeyAdded and ClientPurposeAdded, per kid and purpose ----

  datatype AddPc =
    | AddStart
    | ReadPurpose(p: Option<PurposeRow>)
    | ReadAgreement(p: Option<PurposeRow>, a: Option<AgreementRow>)
    | ReadAll(r: Rows)
    | Written(mem: Entry)
    | RereadPurpose(mem: Entry, p: Option<PurposeRow>)
    | RereadAgreement(mem: Entry, p: Option<PurposeRow>, a: Option<AgreementRow>)
    | RereadAll(mem: Entry, r: Rows)
    | AddDone(mem: Entry)

  datatype Add = Add(publicKey: string, pc: AddPc)

  function AgreementOf(pf: Platform, p: Option<PurposeRow>): Option<AgreementRow> {
    if p.Some? then Lookup(pf.agreements, p.value.Owner()) else None
  }

  function CatalogOf(pf: Platform, p: Option<PurposeRow>, a: Option<AgreementRow>): Option<CatalogRow> {
    if p.Some? && a.Some? then Lookup(pf.catalog, EserviceDescriptor(p.value.eserviceId, a.value.descriptorId))
    else None
  }

  function InMemory(publicKey: string, r: Rows): Entry {
    Create(if r.purpose.Some? then Some(r.purpose.value.consumerId) else None, publicKey, r)
  }

  function AddStep(s: Store, pk: TokenPK, add: Add): (Store, Add)
    requires pk.ClientKidPurpose?
  {
    var pf := s.platform;
    match add.pc
    case AddStart => (s, add.(pc := ReadPurpose(Lookup(pf.purposes, pk.purposeId))))
    case ReadPurpose(p) => (s, add.(pc := ReadAgreement(p, AgreementOf(pf, p))))
    case ReadAgreement(p, a) => (s, add.(pc := ReadAll(Rows(p, a, CatalogOf(pf, p, a)))))
    case ReadAll(r) =>
      var mem := InMemory(add.publicKey, r);
      (s.(tokens := s.tokens[pk := Stored(mem)]), add.(pc := Written(mem)))
    case Written(mem) => (s, add.(pc := RereadPurpose(mem, Lookup(pf.purposes, pk.purposeId))))
    case RereadPurpose(mem, p) => (s, add.(pc := RereadAgreement(mem, p, AgreementOf(pf, p))))
    case RereadAgreement(mem, p, a) => (s, add.(pc := RereadAll(mem, Rows(p, a, CatalogOf(pf, p, a)))))
    case RereadAll(mem, r) =>
      (if pk in s.tokens then s.(tokens := s.tokens[pk := SecondRetrieval(s.tokens[pk], mem, r)]) else s,
       add.(pc := AddDone(mem)))
    case AddDone(_) => (s, add)
  }

  // ---- an agreement or catalog message ----

  datatype Job =
    | AgreementJob(event: Agreements.EventV2, a: Agreements.Agreement, version: nat)
    | CatalogJob(op: Catalog.Op)

  /** Where a loop over an index stands: pages before `page` were read, `pending` are the entries of the
      last page that are still to be updated with `patch`. `catalog` is the descriptor row that an
      agreement job had read before the loop. */
  datatype Walk = Walk(patch: Patch, catalog: Option<CatalogRow>, page: nat, pending: set<TokenPK>)

  /** The action of a catalog job is in the job itself, so its `action` is `Skip`. */
  datatype JobPc =
    | JobStart
    | Writing(action: Agreements.Action)                // guards passed
    | Looking(action: Agreements.Action)                // agreement moved: about to read the descriptor row
    | Walking(action: Agreements.Action, walk: Walk)
    | Rechecking(catalog: Option<CatalogRow>)           // second check of a moved agreement
    | Rewalking(walk: Walk)
    | Retiring(action: Agreements.Action)               // archived agreement: entries done, row still to be written
    | Finished

  function QueryOf(job: Job): Query {
    match job
    case AgreementJob(_, a, _) => ByAgreement(a.Key())
    case CatalogJob(op) => ByDescriptor(op.key)
  }

  function MovePatch(a: Agreements.Agreement, catalog: Option<CatalogRow>): Patch {
    MoveAgreement(a.id, Agreements.ItemStateOf(a.state), a.producerId, a.Descriptor(), catalog)
  }

  function StartWalk(patch: Patch, catalog: Option<CatalogRow>): Walk {
    Walk(patch, catalog, 0, {})
  }

  /** The first call: read the own row and decide. */
  function JobDecide(pf: Platform, job: Job): JobPc {
    match job
    case AgreementJob(event, a, version) =>
      var action := Agreements.DecideV2(Lookup(pf.agreements, a.Key()), event, a, version);
      if action.Replace? || action.Restate? then Writing(action)
      else if action.Retire? then Walking(action, StartWalk(SetAgreementState(action.state), None))
      else Finished
    case CatalogJob(op) =>
      if Catalog.Proceeds(op, Lookup(pf.catalog, op.key)) then Writing(Agreements.Skip) else Finished
  }

  function WriteAgreement(pf: Platform, key: ConsumerEservice, action: Agreements.Action): Platform {
    var row := Agreements.ActOnRow(Lookup(pf.agreements, key), action);
    if row.Some? then Agreements.SetRow(pf, key, row.value) else pf
  }

  function WriteCatalog(pf: Platform, op: Catalog.Op): Platform {
    var row := Lookup(pf.catalog, op.key);
    if Catalog.Proceeds(op, row) then Catalog.SetRow(pf, op.key, Catalog.WrittenRow(op, row)) else pf
  }

  /** What follows the row write. */
  function AfterWrite(job: Job, action: Agreements.Action): JobPc {
    match job
    case AgreementJob(_, _, _) =>
      if action.Replace? then Looking(action)
      else if action.Restate? then Walking(action, StartWalk(SetAgreementState(action.state), None))
      else Finished
    case CatalogJob(op) => Walking(action, StartWalk(Catalog.EntryPatch(op), None))
  }

  function WriteRow(pf: Platform, job: Job, action: Agreements.Action): Platform {
    match job
    case AgreementJob(_, a, _) => WriteAgreement(pf, a.Key(), action)
    case CatalogJob(op) => WriteCatalog(pf, op)
  }

  /** One call of a loop: update one pending entry, or read the next page. */
  function WalkStep(s: Store, q: Query, walk: Walk, pk: TokenPK, paging: Paging): (Store, Walk)
  {
    if walk.pending != {} then
      if pk in walk.pending then
        (if pk in s.tokens then s.(tokens := s.tokens[pk := Apply(walk.patch, s.tokens[pk])]) else s,
         walk.(pending := walk.pending - {pk}))
      else (s, walk)
    else if walk.page <= paging.last then
      (s, walk.(page := walk.page + 1,
                pending := set k | k in s.tokens && Selects(q, k, s.tokens[k]) && paging.Index(k) == walk.page))
    else (s, walk)
  }

  predicate WalkOver(walk: Walk, paging: Paging) {
    walk.pending == {} && walk.page > paging.last
  }

  /** What follows the first loop. */
  function AfterWalk(action: Agreements.Action, walk: Walk): JobPc {
    if action.Replace? then Rechecking(walk.catalog)
    else if action.Retire? then Retiring(action)
    else Finished
  }

  /** The second check of an agreement job: walk again if the descriptor row appeared or changed state. */
  function Recheck(pf: Platform, job: Job, before: Option<CatalogRow>): JobPc {
    match job
    case AgreementJob(_, a, _) =>
      var now := Lookup(pf.catalog, a.Descriptor());
      if now.Some? && (before.None? || now.value.state != before.value.state)
      then Rewalking(StartWalk(MovePatch(a, now), now))
      else Finished
    case CatalogJob(_) => Finished
  }

  function JobStep(s: Store, job: Job, pc: JobPc, pk: TokenPK, paging: Paging): (Store, JobPc) {
    match pc
    case JobStart => (s, JobDecide(s.platform, job))
    case Writing(action) => (s.(platform := WriteRow(s.platform, job, action)), AfterWrite(job, action))
    case Looking(action) =>
      (match job
       case AgreementJob(_, a, _) =>
         var now := Lookup(s.platform.catalog, a.Descriptor());
         (s, Walking(action, StartWalk(MovePatch(a, now), now)))
       case CatalogJob(_) => (s, Finished))
    case Walking(action, walk) =>
      if WalkOver(walk, paging) then (s, AfterWalk(action, walk))
      else var (s', walk') := WalkStep(s, QueryOf(job), walk, pk, paging); (s', Walking(action, walk'))
    case Rechecking(before) => (s, Recheck(s.platform, job, before))
    case Rewalking(walk) =>
      if WalkOver(walk, paging) then (s, Finished)
      else var (s', walk') := WalkStep(s, QueryOf(job), walk, pk, paging); (s', Rewalking(walk'))
    case Retiring(action) => (s.(platform := WriteRow(s.platform, job, action)), Finished)
    case Finished => (s, pc)
  }

  // ---- a loop, seen from one entry ----

  predicate NotPending(pc: JobPc, pk: TokenPK) {
    pc.Walking? || pc.Rewalking? ==> pk !in pc.walk.pending
  }

  /** The loop will still read the entry's page, or update the entry. */
  predicate Ahead(walk: Walk, pk: TokenPK, paging: Paging) {
    walk.page <= paging.Index(pk) || pk in walk.pending
  }

  /** A loop that does not select the entry. */
  lemma WalkLeaves(s: Store, q: Query, walk: Walk, chosen: TokenPK, pk: TokenPK, paging: Paging)
    requires pk !in walk.pending && (pk in s.tokens ==> !Selects(q, pk, s.tokens[pk]))
    ensures var (s', walk') := WalkStep(s, q, walk, chosen, paging);
            s'.platform == s.platform && Lookup(s'.tokens, pk) == Lookup(s.tokens, pk) && pk !in walk'.pending
  {
  }

  /** A loop that selects the entry and is not past it stays so, unless it updates the entry. */
  lemma WalkApproaches(s: Store, q: Query, walk: Walk, chosen: TokenPK, pk: TokenPK, paging: Paging)
    requires !(chosen == pk && pk in walk.pending)
    ensures var (s', walk') := WalkStep(s, q, walk, chosen, paging);
            && s'.platform == s.platform && Lookup(s'.tokens, pk) == Lookup(s.tokens, pk)
            && walk'.patch == walk.patch && walk'.catalog == walk.catalog
            && (pk in s.tokens && Selects(q, pk, s.tokens[pk]) && Ahead(walk, pk, paging) ==> Ahead(walk', pk, paging))
  {
  }

  lemma WalkUpdates(s: Store, q: Query, walk: Walk, pk: TokenPK, paging: Paging)
    requires pk in walk.pending
    ensures var (s', walk') := WalkStep(s, q, walk, pk, paging);
            && s'.platform == s.platform && walk'.patch == walk.patch && walk'.catalog == walk.catalog
            && Lookup(s'.tokens, pk) == if pk in s.tokens then Some(Apply(walk.patch, s.tokens[pk])) else None
  {
  }

  // ---- interleavings ----

  /** A message being handled: where its current job stands, and the flows on other descriptors that follow. */
  datatype Running = Running(job: Job, pc: JobPc, later: seq<Catalog.Op>)

  /** A catalog message handles its flows one after another. */
  function Begin(ops: seq<Catalog.Op>): Running
    requires ops != []
  {
    Running(CatalogJob(ops[0]), JobStart, ops[1..])
  }

  function RunStep(s: Store, run: Running, pk: TokenPK, paging: Paging): (Store, Running) {
    if run.pc.Finished? && run.later != [] then (s, Begin(run.later))
    else
      var (s', pc') := JobStep(s, run.job, run.pc, pk, paging);
      (s', run.(pc := pc'))
  }

  predicate RunOver(run: Running) {
    run.pc.Finished? && run.later == []
  }

  /** Entries being added, by key, and messages being handled, over shared tables. */
  datatype Sys = Sys(store: Store, adds: map<TokenPK, Add>, jobs: seq<Running>)

  /** Who moves next; a job that is updating a page also picks the entry. */
  datatype Move = Adder(pk: TokenPK) | Worker(i: nat, pk: TokenPK)

  function SysStep(sys: Sys, move: Move, paging: Paging): Sys {
    match move
    case Adder(pk) =>
      if pk in sys.adds && pk.ClientKidPurpose? then
        var (s, add) := AddStep(sys.store, pk, sys.adds[pk]);
        sys.(store := s, adds := sys.adds[pk := add])
      else sys
    case Worker(i, pk) =>
      if i < |sys.jobs| then
        var (s, run) := RunStep(sys.store, sys.jobs[i], pk, paging);
        sys.(store := s, jobs := sys.jobs[i := run])
      else sys
  }

  function Interleave(sys: Sys, moves: seq<Move>, paging: Paging): Sys
    decreases |moves|
  {
    if moves == [] then sys
    else SysStep(Interleave(sys, moves[..|moves| - 1], paging), moves[|moves| - 1], paging)
  }

  predicate AllOver(sys: Sys) {
    && (forall pk <- sys.adds :: sys.adds[pk].pc.AddDone?)
    && (forall i | 0 <= i < |sys.jobs| :: RunOver(sys.jobs[i]))
  }

  /** A message that has not begun. */
  predicate Unread(run: Running) {
    && run.pc.JobStart?
    && (if run.job.CatalogJob? then Catalog.DistinctKeys([run.job.op] + run.later) else run.later == [])
  }
}
