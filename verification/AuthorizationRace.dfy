/**
 Adding entries races with agreement and catalog messages, and the second retrieval closes the race: in
 every interleaving of their calls, each added entry that no more than one of the messages concerns ends
 with the producer, descriptor pointer, descriptor state and lifespan of the final rows. What it may keep of the
 agreement state, agreement id, audience and asynchronous flag is said here too; when it does is said in `OpenRaces`.
 */
module AuthorizationRace {
  import opened Basics
  import opened TokenKeys
  import opened PlatformModel
  import opened RaceModel
  import opened CacheInvariant

  // ---- the rows that a purpose leads to, before and after one message ----

  function Pointer(r: Rows): Option<EserviceDescriptor> {
    if r.purpose.Some? && r.agreement.Some?
    then Some(EserviceDescriptor(r.purpose.value.eserviceId, r.agreement.value.descriptorId))
    else None
  }

  /** A message that archives an agreement writes the entries before the row (`retires`); one that archives
      a descriptor writes a state into the entries (`mark`) and deletes the row. */
  datatype Change = Change(r0: Rows, r1: Rows, retires: bool, mark: Option<ItemState>)

  predicate ChangeOk(c: Change) {
    && Chained(c.r0) && Chained(c.r1) && c.r0.purpose.Some? && c.r1.purpose == c.r0.purpose
    && (c.retires ==> SameButState(c.r0, c.r1))
    && (c.mark.Some? ==> c.r1.catalog.None? && c.r1.agreement == c.r0.agreement)
  }

  /** The agreement row may have changed its state and version, and nothing else has changed. */
  predicate SameButState(r0: Rows, r1: Rows) {
    && r0.agreement.Some? && r1.agreement.Some?
    && r1 == r0.(agreement := Some(r0.agreement.value.(state := r1.agreement.value.state,
                                                       version := r1.agreement.value.version)))
  }

  /** The audience gains values and loses none. The second retrieval does not notice. */
  predicate AudienceGrows(r0: Rows, r1: Rows) {
    && r0.catalog.Some? && r1.catalog.Some? && r0.catalog.value.audience != r1.catalog.value.audience
    && forall v <- r0.catalog.value.audience :: v in r1.catalog.value.audience
  }

  /** The fields that the second retrieval refreshes follow the final rows. */
  predicate Caught(e: Entry, c: Change) {
    var r := c.r1;
    && (r.purpose.Some? ==> PurposePart(e, r.purpose.value))
    && (r.agreement.Some? ==>
          && (c.retires || e.agreementState == Some(r.agreement.value.state))
          && e.producerId == Some(r.agreement.value.producerId) && e.descriptor == Pointer(r))
    && (r.catalog.Some? ==>
          && e.descriptorState == Some(r.catalog.value.state) && LifespanMatches(e.lifespan, r.catalog.value.lifespan)
          && (AudienceGrows(c.r0, r) || e.audience == Some(r.catalog.value.audience)))
  }

  /** Each field is the one last put or the one that the message prescribes. */
  predicate Mixed(e: Entry, mem: Entry, c: Change)
    requires c.r1.purpose.Some?
  {
    var r := c.r1;
    && e.consumerEservice == mem.consumerEservice && PurposePart(e, r.purpose.value)
    && (e.agreementId == mem.agreementId || (r.agreement.Some? && e.agreementId == Some(r.agreement.value.agreementId)))
    && (e.agreementState == mem.agreementState
        || (r.agreement.Some? && e.agreementState == Some(r.agreement.value.state)))
    && (e.producerId == mem.producerId || (r.agreement.Some? && e.producerId == Some(r.agreement.value.producerId)))
    && (e.descriptor == mem.descriptor || (r.agreement.Some? && e.descriptor == Pointer(r)))
    && (e.descriptorState == mem.descriptorState || (c.mark.Some? && e.descriptorState == c.mark)
        || (r.catalog.Some? && e.descriptorState == Some(r.catalog.value.state)))
    && (e.lifespan == Stored(mem).lifespan
        || (r.catalog.Some? && LifespanMatches(e.lifespan, r.catalog.value.lifespan)))
    && (e.audience == mem.audience || (r.catalog.Some? && e.audience == Some(r.catalog.value.audience)))
    && (e.asyncExchange == mem.asyncExchange || (r.catalog.Some? && e.asyncExchange == r.catalog.value.asyncExchange))
  }

  /** An entry put from the old or the new rows. */
  predicate FromReads(c: Change, pub: string, mem: Entry) {
    mem == InMemory(pub, c.r0) || mem == InMemory(pub, c.r1)
  }

  // ---- what writes do to one entry ----

  lemma PutIsMixed(c: Change, pub: string, mem: Entry)
    requires ChangeOk(c) && FromReads(c, pub, mem)
    ensures Mixed(Stored(mem), mem, c)
  {
  }

  /** Where nothing changed but the agreement state, or the put was of the new rows, the entry is caught. */
  lemma SettledIsCaught(c: Change, pub: string, mem: Entry, e: Entry)
    requires ChangeOk(c) && FromReads(c, pub, mem) && Mixed(e, mem, c)
    requires mem == InMemory(pub, c.r1) || c.r0 == c.r1 || c.retires
    ensures Caught(e, c)
  {
  }

  lemma SecondRetrievalCatches(c: Change, pub: string, mem: Entry, e: Entry)
    requires ChangeOk(c) && FromReads(c, pub, mem) && Mixed(e, mem, c)
    ensures Caught(SecondRetrieval(e, mem, c.r1), c) && Mixed(SecondRetrieval(e, mem, c.r1), mem, c)
  {
  }

  lemma SameRowsPatchNothing(e: Entry, pub: string, r: Rows)
    ensures Chained(r) ==> SecondRetrieval(e, InMemory(pub, r), r) == e
  {
  }

  /** The update that an agreement message makes in each entry. */
  predicate AgreementFits(c: Change, patch: Patch) {
    && c.r1.agreement.Some? && Pointer(c.r1).Some?
    && var a := c.r1.agreement.value;
       || patch == MoveAgreement(a.agreementId, a.state, a.producerId, Pointer(c.r1).value, c.r1.catalog)
       || (patch == SetAgreementState(a.state) && SameButState(c.r0, c.r1))
  }

  /** A catalog message changes the descriptor row, or does not proceed. */
  predicate OpFits(c: Change, op: Catalog.Op) {
    && c.r1.agreement == c.r0.agreement && !c.retires && Pointer(c.r0) == Some(op.key)
    && if Catalog.Proceeds(op, c.r0.catalog)
       then c.r1.catalog == Catalog.WrittenRow(op, c.r0.catalog)
         && c.mark == (if op.Archive? then Some(op.state) else None)
       else c.r1 == c.r0 && c.mark.None?
  }

  ghost predicate PatchFits(c: Change, patch: Patch) {
    || AgreementFits(c, patch)
    || exists op :: OpFits(c, op) && Catalog.Proceeds(op, c.r0.catalog) && patch == Catalog.EntryPatch(op)
  }

  lemma AgreementPatchCatches(c: Change, patch: Patch, pub: string, mem: Entry, e: Entry)
    requires ChangeOk(c) && AgreementFits(c, patch) && FromReads(c, pub, mem) && Mixed(e, mem, c)
    ensures Caught(Apply(patch, e), c) && Mixed(Apply(patch, e), mem, c)
  {
  }

  lemma OpPatchCatches(c: Change, op: Catalog.Op, pub: string, mem: Entry, e: Entry)
    requires ChangeOk(c) && OpFits(c, op) && Catalog.Proceeds(op, c.r0.catalog)
    requires FromReads(c, pub, mem) && Mixed(e, mem, c)
    ensures Caught(Apply(Catalog.EntryPatch(op), e), c) && Mixed(Apply(Catalog.EntryPatch(op), e), mem, c)
  {
  }

  /** An update of the message brings the entry to the final rows, whichever rows it was put from. */
  lemma PatchCatches(c: Change, patch: Patch, pub: string, mem: Entry, e: Entry)
    requires ChangeOk(c) && PatchFits(c, patch) && FromReads(c, pub, mem) && Mixed(e, mem, c)
    ensures Caught(Apply(patch, e), c) && Mixed(Apply(patch, e), mem, c)
  {
    if AgreementFits(c, patch) {
      AgreementPatchCatches(c, patch, pub, mem, e);
    } else {
      var op :| OpFits(c, op) && Catalog.Proceeds(op, c.r0.catalog) && patch == Catalog.EntryPatch(op);
      OpPatchCatches(c, op, pub, mem, e);
    }
  }

  // ---- the adder: what it has read and what becomes of its entry ----

  /** The rows as the tables hold them: the old ones `before` the message writes its row, then the new ones. */
  predicate Seen(pf: Platform, pk: TokenPK, c: Change, before: bool) {
    var sameAgreement := c.r0.agreement == c.r1.agreement;
    && pk.ClientKidPurpose? && c.r0.purpose.Some? && Lookup(pf.purposes, pk.purposeId) == c.r0.purpose
    && Lookup(pf.agreements, c.r0.purpose.value.Owner()) == (if before then c.r0 else c.r1).agreement
    && (Pointer(c.r0).Some? ==>
          Lookup(pf.catalog, Pointer(c.r0).value) == (if before || !sameAgreement then c.r0 else c.r1).catalog)
    && (Pointer(c.r1).Some? ==>
          Lookup(pf.catalog, Pointer(c.r1).value) == (if before && sameAgreement then c.r0 else c.r1).catalog)
  }

  predicate ReadOk(c: Change, before: bool, r: Rows) {
    r == c.r0 || (!before && r == c.r1)
  }

  predicate AgreementReadOk(c: Change, before: bool, p: Option<PurposeRow>, a: Option<AgreementRow>) {
    && p == c.r0.purpose
    && (a == c.r0.agreement || (!before && a == c.r1.agreement))
  }

  predicate HasPut(pc: AddPc) {
    pc.Written? || pc.RereadPurpose? || pc.RereadAgreement? || pc.RereadAll? || pc.AddDone?
  }

  /** What an adder has read so far; a second read never returns older rows than the first. */
  predicate ReadsOk(c: Change, before: bool, add: Add) {
    var oldPut := InMemory(add.publicKey, c.r0);
    && (HasPut(add.pc) ==> add.pc.mem == oldPut || (!before && add.pc.mem == InMemory(add.publicKey, c.r1)))
    && match add.pc
       case ReadPurpose(p) => p == c.r0.purpose
       case ReadAgreement(p, a) => AgreementReadOk(c, before, p, a)
       case ReadAll(r) => ReadOk(c, before, r)
       case RereadPurpose(_, p) => p == c.r0.purpose
       case RereadAgreement(mem, p, a) => AgreementReadOk(c, before, p, a) && (a == c.r1.agreement || mem == oldPut)
       case RereadAll(mem, r) => ReadOk(c, before, r) && (r == c.r1 || mem == oldPut)
       case _ => true
  }

  /** The adder will still see the new rows. */
  predicate WillSee(c: Change, pc: AddPc) {
    match pc
    case Written(_) => true
    case RereadPurpose(_, _) => true
    case RereadAgreement(_, _, a) => a == c.r1.agreement
    case RereadAll(_, r) => r == c.r1
    case _ => false
  }

  /** Once put, an entry is caught or will be: by the message, or by its own second retrieval. */
  predicate EntryOk(e: Entry, c: Change, pc: AddPc, before: bool, reaches: bool)
    requires c.r1.purpose.Some? && HasPut(pc)
  {
    Mixed(e, pc.mem, c) && (before || Caught(e, c) || reaches || WillSee(c, pc))
  }

  /** `reaches`: the message has written its row and will still read or update the entry. */
  predicate AddOk(tokens: Tokens, pk: TokenPK, c: Change, add: Add, before: bool, reaches: bool) {
    && ChangeOk(c) && ReadsOk(c, before, add)
    && (HasPut(add.pc) ==> pk in tokens && EntryOk(tokens[pk], c, add.pc, before, reaches))
  }

  /** The entry stays with its consumer and e-service and with a descriptor of the old or the new rows. */
  predicate Home(tokens: Tokens, pk: TokenPK, c: Change)
    requires c.r0.purpose.Some?
  {
    pk in tokens ==>
      && tokens[pk].consumerEservice == Some(c.r0.purpose.value.Owner())
      && (tokens[pk].descriptor.Some? ==>
            tokens[pk].descriptor == Pointer(c.r0) || tokens[pk].descriptor == Pointer(c.r1))
  }

  lemma ReadsReturn(pf: Platform, pk: TokenPK, c: Change, before: bool, a: Option<AgreementRow>)
    requires ChangeOk(c) && Seen(pf, pk, c, before) && AgreementReadOk(c, before, c.r0.purpose, a)
    ensures AgreementOf(pf, c.r0.purpose) == (if before then c.r0 else c.r1).agreement
    ensures var r := Rows(c.r0.purpose, a, CatalogOf(pf, c.r0.purpose, a));
            ReadOk(c, before, r) && (!before && a == c.r1.agreement ==> r == c.r1)
  {
  }

  lemma FirstReadKeeps(s: Store, pk: TokenPK, c: Change, add: Add, before: bool, reaches: bool)
    requires Seen(s.platform, pk, c, before) && AddOk(s.tokens, pk, c, add, before, reaches)
    requires !HasPut(add.pc) && !add.pc.ReadAll?
    ensures AddStep(s, pk, add).0 == s && AddOk(s.tokens, pk, c, AddStep(s, pk, add).1, before, reaches)
  {
    ReadsReturn(s.platform, pk, c, before, if add.pc.ReadAgreement? then add.pc.a else c.r0.agreement);
  }

  lemma SecondReadKeeps(s: Store, pk: TokenPK, c: Change, add: Add, before: bool, reaches: bool)
    requires Seen(s.platform, pk, c, before) && AddOk(s.tokens, pk, c, add, before, reaches)
    requires HasPut(add.pc) && !add.pc.RereadAll?
    ensures AddStep(s, pk, add).0 == s && AddOk(s.tokens, pk, c, AddStep(s, pk, add).1, before, reaches)
  {
    ReadsReturn(s.platform, pk, c, before, if add.pc.RereadAgreement? then add.pc.a else c.r0.agreement);
    var add' := AddStep(s, pk, add).1;
    assert ReadsOk(c, before, add');
    assert !before && WillSee(c, add.pc) ==> WillSee(c, add'.pc) || add.pc.AddDone?;
  }

  lemma PutKeeps(s: Store, pk: TokenPK, c: Change, add: Add, before: bool, reaches: bool)
    requires Seen(s.platform, pk, c, before) && AddOk(s.tokens, pk, c, add, before, reaches) && add.pc.ReadAll?
    ensures var (s', add') := AddStep(s, pk, add);
            AddOk(s'.tokens, pk, c, add', before, reaches) && Home(s'.tokens, pk, c)
  {
    PutIsMixed(c, add.publicKey, InMemory(add.publicKey, add.pc.r));
  }

  lemma PatchKeeps(s: Store, pk: TokenPK, c: Change, add: Add, before: bool, reaches: bool)
    requires Seen(s.platform, pk, c, before) && AddOk(s.tokens, pk, c, add, before, reaches) && add.pc.RereadAll?
    ensures var (s', add') := AddStep(s, pk, add);
            AddOk(s'.tokens, pk, c, add', before, reaches) && Home(s'.tokens, pk, c)
  {
    var mem, r, e := add.pc.mem, add.pc.r, s.tokens[pk];
    if r == c.r1 {
      SecondRetrievalCatches(c, add.publicKey, mem, e);
    } else {
      SameRowsPatchNothing(e, add.publicKey, c.r0);
      assert SecondRetrieval(e, mem, r) == e;
    }
    MixedIsHome(c, add.publicKey, mem, SecondRetrieval(e, mem, r));
  }

  lemma MixedIsHome(c: Change, pub: string, mem: Entry, e: Entry)
    requires ChangeOk(c) && FromReads(c, pub, mem) && Mixed(e, mem, c)
    ensures e.consumerEservice == Some(c.r0.purpose.value.Owner())
    ensures e.descriptor == Pointer(c.r0) || e.descriptor == Pointer(c.r1)
  {
  }

  lemma AdderKeeps(s: Store, pk: TokenPK, c: Change, add: Add, before: bool, reaches: bool)
    requires Seen(s.platform, pk, c, before) && AddOk(s.tokens, pk, c, add, before, reaches) && Home(s.tokens, pk, c)
    ensures var (s', add') := AddStep(s, pk, add);
            && s'.platform == s.platform && AddOk(s'.tokens, pk, c, add', before, reaches) && Home(s'.tokens, pk, c)
  {
    if add.pc.ReadAll? {
      PutKeeps(s, pk, c, add, before, reaches);
    } else if add.pc.RereadAll? {
      PatchKeeps(s, pk, c, add, before, reaches);
    } else if HasPut(add.pc) {
      SecondReadKeeps(s, pk, c, add, before, reaches);
    } else {
      FirstReadKeeps(s, pk, c, add, before, reaches);
    }
  }

  // ---- what a step of a message may do to the adder's entry ----

  /** The entry is left alone, and the message is as far from it as before, or has just written its row. */
  lemma LeavesAlone(tokens: Tokens, tokens': Tokens, pk: TokenPK, c: Change, add: Add, before: bool, reaches: bool,
                    before': bool, reaches': bool)
    requires AddOk(tokens, pk, c, add, before, reaches) && Lookup(tokens', pk) == Lookup(tokens, pk)
    requires before' ==> before
    requires before' || reaches' || (!before && (reaches ==> !HasPut(add.pc))) || c.r0 == c.r1 || c.retires
    ensures AddOk(tokens', pk, c, add, before', reaches')
  {
    if HasPut(add.pc) && (c.r0 == c.r1 || c.retires) {
      SettledIsCaught(c, add.publicKey, add.pc.mem, tokens[pk]);
    }
  }

  lemma Updates(tokens: Tokens, tokens': Tokens, pk: TokenPK, c: Change, add: Add, patch: Patch, before: bool,
                reaches: bool, reaches': bool)
    requires AddOk(tokens, pk, c, add, before, reaches) && PatchFits(c, patch)
    requires pk in tokens ==> pk in tokens' && tokens'[pk] == Apply(patch, tokens[pk])
    ensures AddOk(tokens', pk, c, add, before, reaches')
  {
    if HasPut(add.pc) { PatchCatches(c, patch, add.publicKey, add.pc.mem, tokens[pk]); }
  }

  // ---- messages that do not concern the entry ----

  function KeysOf(run: Running): set<EserviceDescriptor>
    requires run.job.CatalogJob?
  {
    {run.job.op.key} + set op | op in run.later :: op.key
  }

  /** Neither the rows nor the entry are ever touched. */
  predicate Apart(run: Running, pk: TokenPK, c: Change)
    requires c.r0.purpose.Some?
  {
    && NotPending(run.pc, pk)
    && match run.job
       case AgreementJob(_, a, _) => a.Key() != c.r0.purpose.value.Owner() && run.later == []
       case CatalogJob(_) =>
         && (Pointer(c.r0).Some? ==> Pointer(c.r0).value !in KeysOf(run))
         && (Pointer(c.r1).Some? ==> Pointer(c.r1).value !in KeysOf(run))
  }

  lemma ApartIsNotSelected(tokens: Tokens, run: Running, pk: TokenPK, c: Change)
    requires c.r0.purpose.Some? && Home(tokens, pk, c) && Apart(run, pk, c)
    ensures pk in tokens ==> !Selects(QueryOf(run.job), pk, tokens[pk])
  {
    if run.job.CatalogJob? { assert run.job.op.key in KeysOf(run); }
  }

  lemma ApartWrites(pf: Platform, run: Running, action: Agreements.Action, pk: TokenPK, c: Change, before: bool)
    requires ChangeOk(c) && Seen(pf, pk, c, before) && Apart(run, pk, c)
    ensures Seen(WriteRow(pf, run.job, action), pk, c, before)
  {
    if run.job.CatalogJob? { assert run.job.op.key in KeysOf(run); }
  }

  lemma ApartLeaves(s: Store, run: Running, chosen: TokenPK, pk: TokenPK, c: Change, before: bool, paging: Paging)
    requires ChangeOk(c) && Seen(s.platform, pk, c, before) && Home(s.tokens, pk, c) && Apart(run, pk, c)
    ensures var (s', run') := RunStep(s, run, chosen, paging);
            && Seen(s'.platform, pk, c, before) && Lookup(s'.tokens, pk) == Lookup(s.tokens, pk) && Apart(run', pk, c)
  {
    var (s', run') := RunStep(s, run, chosen, paging);
    if run.pc.Finished? && run.later != [] {
      assert KeysOf(Begin(run.later)) <= KeysOf(run);
    } else if run.pc.Walking? || run.pc.Rewalking? {
      ApartIsNotSelected(s.tokens, run, pk, c);
      WalkLeaves(s, QueryOf(run.job), run.pc.walk, chosen, pk, paging);
      assert run'.job == run.job && run'.later == run.later;
    } else {
      if run.pc.Writing? || run.pc.Retiring? { ApartWrites(s.platform, run, run.pc.action, pk, c, before); }
      assert s'.tokens == s.tokens && NotPending(run'.pc, pk);
      assert run'.job == run.job && run'.later == run.later;
    }
  }

  // ---- the message that concerns the entry ----

  function ActionOf(c: Change, job: Job): Agreements.Action
    requires job.AgreementJob?
  {
    Agreements.DecideV2(c.r0.agreement, job.event, job.a, job.version)
  }

  /** Where an agreement message stands. */
  predicate AgreementShape(run: Running, c: Change)
    requires c.r0.purpose.Some?
  {
    && run.job.AgreementJob? && run.later == [] && run.job.a.Key() == c.r0.purpose.value.Owner()
    && var action := ActionOf(c, run.job);
       && c.retires == action.Retire? && c.r1.agreement == Agreements.ActOnRow(c.r0.agreement, action)
       && (Pointer(c.r1) == Pointer(c.r0) ==> c.r1.catalog == c.r0.catalog)
       && (action.Skip? || action.Throw? ==> c.r0 == c.r1)
       && (action.Restate? || action.Retire? ==> SameButState(c.r0, c.r1))
       && match run.pc
          case JobStart => true
          case Writing(x) => x == action && (action.Replace? || action.Restate?)
          case Looking(x) => x == action && action.Replace?
          case Walking(x, walk) =>
            && x == action && (action.Replace? || action.Restate? || action.Retire?)
            && AgreementFits(c, walk.patch) && (action.Replace? ==> walk.catalog == c.r1.catalog)
          case Rechecking(read) => action.Replace? && read == c.r1.catalog
          case Rewalking(_) => false
          case Retiring(x) => x == action && action.Retire?
          case Finished => true
  }

  /** Where a catalog message stands: its flows are on distinct descriptors, so one at most is on the entry's. */
  predicate CatalogShape(run: Running, pk: TokenPK, c: Change) {
    && run.job.CatalogJob? && Pointer(c.r0).Some? && Pointer(c.r1) == Pointer(c.r0)
    && c.r1.agreement == c.r0.agreement && !c.retires
    && Catalog.Leads(run.job.op, run.later)
    && (run.job.op.key == Pointer(c.r0).value ==> OpFits(c, run.job.op))
    && (forall op <- run.later :: op.key == Pointer(c.r0).value ==> OpFits(c, op))
    && if run.job.op.key != Pointer(c.r0).value then NotPending(run.pc, pk)
       else
         match run.pc
         case JobStart => true
         case Writing(x) => x.Skip? && Catalog.Proceeds(run.job.op, c.r0.catalog)
         case Walking(x, walk) =>
           x.Skip? && Catalog.Proceeds(run.job.op, c.r0.catalog) && walk.patch == Catalog.EntryPatch(run.job.op)
         case Finished => true
         case _ => false
  }

  /** The message has not written its row yet. */
  predicate Before(run: Running, c: Change) {
    match run.job
    case AgreementJob(_, _, _) =>
      if c.retires then !run.pc.Finished? else run.pc.JobStart? || run.pc.Writing?
    case CatalogJob(op) =>
      Pointer(c.r0).Some?
      && ((op.key == Pointer(c.r0).value && (run.pc.JobStart? || run.pc.Writing?))
          || exists x <- run.later :: x.key == Pointer(c.r0).value)
  }

  /** The message will still read or update the entry. */
  predicate Reaches(run: Running, pk: TokenPK, c: Change, paging: Paging) {
    || (run.pc.Looking? && run.job.AgreementJob?)
    || (&& run.pc.Walking? && Ahead(run.pc.walk, pk, paging)
        && (run.job.CatalogJob? ==> Pointer(c.r0) == Some(run.job.op.key)))
  }

  /** A message of which no flow is on the entry's rows changes nothing that the entry depends on. */
  predicate Concerns(run: Running, pk: TokenPK, c: Change)
    requires c.r0.purpose.Some?
  {
    || (Apart(run, pk, c) && c.r0 == c.r1)
    || AgreementShape(run, c)
    || CatalogShape(run, pk, c)
  }

  ghost predicate PkOk(s: Store, run: Running, pk: TokenPK, c: Change, add: Add, paging: Paging) {
    && ChangeOk(c) && Seen(s.platform, pk, c, Before(run, c)) && Home(s.tokens, pk, c)
    && AddOk(s.tokens, pk, c, add, Before(run, c), Reaches(run, pk, c, paging)) && Concerns(run, pk, c)
  }

  lemma AgreementStarts(s: Store, run: Running, chosen: TokenPK, pk: TokenPK, c: Change, add: Add, paging: Paging)
    requires PkOk(s, run, pk, c, add, paging) && AgreementShape(run, c) && run.pc.JobStart?
    ensures var (s', run') := RunStep(s, run, chosen, paging); PkOk(s', run', pk, c, add, paging)
  {
    var (s', run') := RunStep(s, run, chosen, paging);
    assert JobDecide(s.platform, run.job) == run'.pc;
    LeavesAlone(s.tokens, s'.tokens, pk, c, add, Before(run, c), Reaches(run, pk, c, paging),
                Before(run', c), Reaches(run', pk, c, paging));
    assert AgreementShape(run', c);
  }

  lemma AgreementWrites(s: Store, run: Running, chosen: TokenPK, pk: TokenPK, c: Change, add: Add, paging: Paging)
    requires PkOk(s, run, pk, c, add, paging) && AgreementShape(run, c) && (run.pc.Writing? || run.pc.Retiring?)
    ensures var (s', run') := RunStep(s, run, chosen, paging); PkOk(s', run', pk, c, add, paging)
  {
    var (s', run') := RunStep(s, run, chosen, paging);
    assert Before(run, c) && !Before(run', c);
    LeavesAlone(s.tokens, s'.tokens, pk, c, add, true, Reaches(run, pk, c, paging), false,
      Reaches(run', pk, c, paging));
    assert AgreementShape(run', c);
  }

  lemma AgreementLooks(s: Store, run: Running, chosen: TokenPK, pk: TokenPK, c: Change, add: Add, paging: Paging)
    requires PkOk(s, run, pk, c, add, paging) && AgreementShape(run, c) && (run.pc.Looking? || run.pc.Rechecking?)
    ensures var (s', run') := RunStep(s, run, chosen, paging); PkOk(s', run', pk, c, add, paging)
  {
    var (s', run') := RunStep(s, run, chosen, paging);
    assert Pointer(c.r1) == Some(run.job.a.Descriptor());
    assert Lookup(s.platform.catalog, run.job.a.Descriptor()) == c.r1.catalog;
    LeavesAlone(s.tokens, s'.tokens, pk, c, add, Before(run, c), Reaches(run, pk, c, paging),
                Before(run', c), Reaches(run', pk, c, paging));
    assert AgreementShape(run', c);
  }

  lemma AgreementWalks(s: Store, run: Running, chosen: TokenPK, pk: TokenPK, c: Change, add: Add, paging: Paging)
    requires PkOk(s, run, pk, c, add, paging) && AgreementShape(run, c) && run.pc.Walking?
    ensures var (s', run') := RunStep(s, run, chosen, paging); PkOk(s', run', pk, c, add, paging)
  {
    var (s', run') := RunStep(s, run, chosen, paging);
    var walk := run.pc.walk;
    if WalkOver(walk, paging) {
      LeavesAlone(s.tokens, s'.tokens, pk, c, add, Before(run, c), Reaches(run, pk, c, paging),
                  Before(run', c), Reaches(run', pk, c, paging));
    } else if chosen == pk && pk in walk.pending {
      WalkUpdates(s, QueryOf(run.job), walk, pk, paging);
      Updates(s.tokens, s'.tokens, pk, c, add, walk.patch, Before(run, c), Reaches(run, pk, c, paging),
              Reaches(run', pk, c, paging));
    } else {
      WalkApproaches(s, QueryOf(run.job), walk, chosen, pk, paging);
      LeavesAlone(s.tokens, s'.tokens, pk, c, add, Before(run, c), Reaches(run, pk, c, paging),
                  Before(run', c), Reaches(run', pk, c, paging));
    }
    assert AgreementShape(run', c);
  }

  lemma AgreementKeeps(s: Store, run: Running, chosen: TokenPK, pk: TokenPK, c: Change, add: Add, paging: Paging)
    requires PkOk(s, run, pk, c, add, paging) && AgreementShape(run, c)
    ensures var (s', run') := RunStep(s, run, chosen, paging); PkOk(s', run', pk, c, add, paging)
  {
    match run.pc
    case JobStart => AgreementStarts(s, run, chosen, pk, c, add, paging);
    case Writing(_) => AgreementWrites(s, run, chosen, pk, c, add, paging);
    case Retiring(_) => AgreementWrites(s, run, chosen, pk, c, add, paging);
    case Looking(_) => AgreementLooks(s, run, chosen, pk, c, add, paging);
    case Rechecking(_) => AgreementLooks(s, run, chosen, pk, c, add, paging);
    case Walking(_, _) => AgreementWalks(s, run, chosen, pk, c, add, paging);
    case Finished =>
  }

  // ---- a catalog message ----

  /** While another of the message's flows is handled, the entry and its rows are left alone. */
  lemma OtherOpLeaves(s: Store, run: Running, chosen: TokenPK, pk: TokenPK, c: Change, add: Add, paging: Paging)
    requires PkOk(s, run, pk, c, add, paging) && CatalogShape(run, pk, c)
    requires Pointer(c.r0) != Some(run.job.op.key) && !(run.pc.Finished? && run.later != [])
    ensures var (s', run') := RunStep(s, run, chosen, paging); PkOk(s', run', pk, c, add, paging)
  {
    var (s', run') := RunStep(s, run, chosen, paging);
    if run.pc.Walking? || run.pc.Rewalking? {
      assert pk in s.tokens ==> !Selects(QueryOf(run.job), pk, s.tokens[pk]);
      WalkLeaves(s, QueryOf(run.job), run.pc.walk, chosen, pk, paging);
    }
    assert run'.job == run.job && run'.later == run.later;
    assert NotPending(run'.pc, pk) && Lookup(s'.tokens, pk) == Lookup(s.tokens, pk);
  }

  lemma NextOp(s: Store, run: Running, chosen: TokenPK, pk: TokenPK, c: Change, add: Add, paging: Paging)
    requires PkOk(s, run, pk, c, add, paging) && CatalogShape(run, pk, c) && run.pc.Finished? && run.later != []
    ensures var (s', run') := RunStep(s, run, chosen, paging); PkOk(s', run', pk, c, add, paging)
  {
    var run' := Begin(run.later);
    Catalog.LeadsOn(run.job.op, run.later);
    assert run.later == [run'.job.op] + run'.later;
    assert Before(run', c) == Before(run, c);
    assert CatalogShape(run', pk, c);
  }

  lemma OpStarts(s: Store, run: Running, chosen: TokenPK, pk: TokenPK, c: Change, add: Add, paging: Paging)
    requires PkOk(s, run, pk, c, add, paging) && CatalogShape(run, pk, c)
    requires Pointer(c.r0) == Some(run.job.op.key) && (run.pc.JobStart? || run.pc.Writing?)
    ensures var (s', run') := RunStep(s, run, chosen, paging); PkOk(s', run', pk, c, add, paging)
  {
    var (s', run') := RunStep(s, run, chosen, paging);
    assert Lookup(s.platform.catalog, run.job.op.key) == c.r0.catalog;
    LeavesAlone(s.tokens, s'.tokens, pk, c, add, true, Reaches(run, pk, c, paging),
                Before(run', c), Reaches(run', pk, c, paging));
    assert CatalogShape(run', pk, c);
  }

  lemma OpWalks(s: Store, run: Running, chosen: TokenPK, pk: TokenPK, c: Change, add: Add, paging: Paging)
    requires PkOk(s, run, pk, c, add, paging) && CatalogShape(run, pk, c)
    requires Pointer(c.r0) == Some(run.job.op.key) && run.pc.Walking?
    ensures var (s', run') := RunStep(s, run, chosen, paging); PkOk(s', run', pk, c, add, paging)
  {
    var (s', run') := RunStep(s, run, chosen, paging);
    var walk := run.pc.walk;
    if WalkOver(walk, paging) {
      LeavesAlone(s.tokens, s'.tokens, pk, c, add, Before(run, c), Reaches(run, pk, c, paging),
                  Before(run', c), Reaches(run', pk, c, paging));
    } else if chosen == pk && pk in walk.pending {
      WalkUpdates(s, QueryOf(run.job), walk, pk, paging);
      Updates(s.tokens, s'.tokens, pk, c, add, walk.patch, Before(run, c), Reaches(run, pk, c, paging),
              Reaches(run', pk, c, paging));
    } else {
      WalkApproaches(s, QueryOf(run.job), walk, chosen, pk, paging);
      if HasPut(add.pc) { MixedIsHome(c, add.publicKey, add.pc.mem, s.tokens[pk]); }
      LeavesAlone(s.tokens, s'.tokens, pk, c, add, Before(run, c), Reaches(run, pk, c, paging),
                  Before(run', c), Reaches(run', pk, c, paging));
    }
    assert CatalogShape(run', pk, c);
  }

  lemma CatalogKeeps(s: Store, run: Running, chosen: TokenPK, pk: TokenPK, c: Change, add: Add, paging: Paging)
    requires PkOk(s, run, pk, c, add, paging) && CatalogShape(run, pk, c)
    ensures var (s', run') := RunStep(s, run, chosen, paging); PkOk(s', run', pk, c, add, paging)
  {
    if run.pc.Finished? && run.later != [] {
      NextOp(s, run, chosen, pk, c, add, paging);
    } else if Pointer(c.r0) != Some(run.job.op.key) {
      OtherOpLeaves(s, run, chosen, pk, c, add, paging);
    } else if run.pc.Walking? {
      OpWalks(s, run, chosen, pk, c, add, paging);
    } else if run.pc.JobStart? || run.pc.Writing? {
      OpStarts(s, run, chosen, pk, c, add, paging);
    }
  }

  // ---- every interleaving ----

  ghost predicate RaceOk(sys: Sys, i: nat, pk: TokenPK, c: Change, paging: Paging) {
    && i < |sys.jobs| && pk in sys.adds
    && PkOk(sys.store, sys.jobs[i], pk, c, sys.adds[pk], paging)
    && forall j | 0 <= j < |sys.jobs| && j != i :: Apart(sys.jobs[j], pk, c)
  }

  lemma WorkerKeeps(s: Store, run: Running, chosen: TokenPK, pk: TokenPK, c: Change, add: Add, paging: Paging)
    requires PkOk(s, run, pk, c, add, paging)
    ensures var (s', run') := RunStep(s, run, chosen, paging); PkOk(s', run', pk, c, add, paging)
  {
    if AgreementShape(run, c) {
      AgreementKeeps(s, run, chosen, pk, c, add, paging);
    } else if CatalogShape(run, pk, c) {
      CatalogKeeps(s, run, chosen, pk, c, add, paging);
    } else {
      var (s', run') := RunStep(s, run, chosen, paging);
      ApartLeaves(s, run, chosen, pk, c, Before(run, c), paging);
      assert Seen(s'.platform, pk, c, true) && Seen(s'.platform, pk, c, false);
      ApartNeverReaches(s, run, pk, c, add, paging, s'.tokens, run');
    }
  }

  /** Without a change of rows it does not matter where the message stands. */
  lemma ApartNeverReaches(s: Store, run: Running, pk: TokenPK, c: Change, add: Add, paging: Paging, tokens': Tokens,
                          run': Running)
    requires PkOk(s, run, pk, c, add, paging) && c.r0 == c.r1 && Lookup(tokens', pk) == Lookup(s.tokens, pk)
    ensures AddOk(tokens', pk, c, add, Before(run', c), Reaches(run', pk, c, paging))
  {
    if HasPut(add.pc) { SettledIsCaught(c, add.publicKey, add.pc.mem, s.tokens[pk]); }
  }

  lemma StepKeeps(sys: Sys, move: Move, i: nat, pk: TokenPK, c: Change, paging: Paging)
    requires RaceOk(sys, i, pk, c, paging)
    ensures RaceOk(SysStep(sys, move, paging), i, pk, c, paging)
  {
    var sys' := SysStep(sys, move, paging);
    var run, add := sys.jobs[i], sys.adds[pk];
    match move
    case Adder(k) =>
      if k == pk {
        AdderKeeps(sys.store, pk, c, add, Before(run, c), Reaches(run, pk, c, paging));
      } else if k in sys.adds && k.ClientKidPurpose? {
        assert Lookup(sys'.store.tokens, pk) == Lookup(sys.store.tokens, pk);
      }
    case Worker(j, chosen) =>
      if j == i {
        WorkerKeeps(sys.store, run, chosen, pk, c, add, paging);
      } else if j < |sys.jobs| {
        ApartLeaves(sys.store, sys.jobs[j], chosen, pk, c, Before(run, c), paging);
      }
  }

  lemma {:induction false} InterleavingKeeps(sys: Sys, moves: seq<Move>, i: nat, pk: TokenPK, c: Change, paging: Paging)
    requires RaceOk(sys, i, pk, c, paging)
    ensures RaceOk(Interleave(sys, moves, paging), i, pk, c, paging)
    decreases |moves|
  {
    if moves != [] {
      var init := moves[..|moves| - 1];
      InterleavingKeeps(sys, init, i, pk, c, paging);
      StepKeeps(Interleave(sys, init, paging), moves[|moves| - 1], i, pk, c, paging);
    }
  }

  // ---- the result ----

  /** What a message that has not begun will do to the rows that a purpose leads to. */
  function ChangeBy(pf: Platform, run: Running, purposeId: Id): Change {
    var r := Retrieve(pf, purposeId);
    match run.job
    case AgreementJob(event, a, version) =>
      var action := Agreements.DecideV2(Lookup(pf.agreements, a.Key()), event, a, version);
      if r.purpose.Some? && r.purpose.value.Owner() == a.Key()
      then Change(r, Retrieve(WriteAgreement(pf, a.Key(), action), purposeId), action.Retire?, None)
      else Change(r, r, false, None)
    case CatalogJob(op) =>
      match if Pointer(r).Some? then Catalog.OpOn([op] + run.later, Pointer(r).value) else None
      case None => Change(r, r, false, None)
      case Some(x) =>
        if Catalog.Proceeds(x, r.catalog)
        then Change(r, r.(catalog := Catalog.WrittenRow(x, r.catalog)), false, if x.Archive? then Some(x.state)
          else None)
        else Change(r, r, false, None)
  }

  /** An entry about to be added over joined tables, its purpose row there, and messages not yet read of which
      only number `i` may be about its rows, old or new. */
  ghost predicate RaceStart(sys: Sys, i: nat, pk: TokenPK, owners: Owners) {
    && Joined(sys.store, owners)
    && pk in sys.adds && sys.adds[pk].pc == AddStart
    && pk.ClientKidPurpose? && pk.purposeId in sys.store.platform.purposes
    && i < |sys.jobs| && (forall j | 0 <= j < |sys.jobs| :: Unread(sys.jobs[j]))
    && forall j | 0 <= j < |sys.jobs| && j != i ::
         Apart(sys.jobs[j], pk, ChangeBy(sys.store.platform, sys.jobs[i], pk.purposeId))
  }

  /** How the message stands to the change that it will make, before it begins. */
  predicate Announces(pf: Platform, run: Running, pk: TokenPK)
    requires pk.ClientKidPurpose? && pk.purposeId in pf.purposes
  {
    var c := ChangeBy(pf, run, pk.purposeId);
    && ChangeOk(c) && Seen(pf, pk, c, true) && c.r0 == Retrieve(pf, pk.purposeId)
    && Concerns(run, pk, c) && (Before(run, c) || c.r0 == c.r1)
  }

  lemma CatalogChangeIsOk(pf: Platform, run: Running, pk: TokenPK)
    requires pk.ClientKidPurpose? && pk.purposeId in pf.purposes && Unread(run) && run.job.CatalogJob?
    ensures Announces(pf, run, pk)
  {
    var c, op := ChangeBy(pf, run, pk.purposeId), run.job.op;
    if Pointer(c.r0).Some? {
      Catalog.OpOnIs([op] + run.later, Pointer(c.r0).value);
      Catalog.LeadsIs(op, run.later);
      assert op == ([op] + run.later)[0];
    }
  }

  lemma AgreementChangeIsOk(pf: Platform, run: Running, pk: TokenPK)
    requires pk.ClientKidPurpose? && pk.purposeId in pf.purposes && Unread(run) && run.job.AgreementJob?
    ensures Announces(pf, run, pk)
  {
  }

  lemma ChangeIsOk(pf: Platform, run: Running, pk: TokenPK)
    requires pk.ClientKidPurpose? && pk.purposeId in pf.purposes && Unread(run)
    ensures Announces(pf, run, pk)
  {
    if run.job.CatalogJob? { CatalogChangeIsOk(pf, run, pk); } else { AgreementChangeIsOk(pf, run, pk); }
  }

  lemma StartIsOk(sys: Sys, i: nat, pk: TokenPK, owners: Owners, paging: Paging)
    requires RaceStart(sys, i, pk, owners)
    ensures RaceOk(sys, i, pk, ChangeBy(sys.store.platform, sys.jobs[i], pk.purposeId), paging)
  {
    var pf, run := sys.store.platform, sys.jobs[i];
    ChangeIsOk(pf, run, pk);
    if pk in sys.store.tokens { assert EntryJoins(pf, pk, sys.store.tokens[pk], owners); }
  }

  /** The race is closed: in every interleaving that ends, the added entry follows the final rows. */
  lemma SecondRetrievalClosesTheRace(sys: Sys, moves: seq<Move>, i: nat, paging: Paging, owners: Owners, pk: TokenPK)
    requires RaceStart(sys, i, pk, owners)
    requires AllOver(Interleave(sys, moves, paging))
    ensures var end := Interleave(sys, moves, paging).store;
            var c := ChangeBy(sys.store.platform, sys.jobs[i], pk.purposeId);
            && Retrieve(end.platform, pk.purposeId) == c.r1
            && pk in end.tokens && Caught(end.tokens[pk], c) && Keeps(end.tokens[pk], c)
  {
    var c := ChangeBy(sys.store.platform, sys.jobs[i], pk.purposeId);
    StartIsOk(sys, i, pk, owners, paging);
    InterleavingKeeps(sys, moves, i, pk, c, paging);
    var end := Interleave(sys, moves, paging);
    assert AllOver(end) && PkOk(end.store, end.jobs[i], pk, c, end.adds[pk], paging);
    EndIsCaught(end.store, end.jobs[i], pk, c, end.adds[pk], paging);
  }

  /** The fields that are not refreshed, or written out of order, hold one of the values of the old and new rows. */
  predicate Keeps(e: Entry, c: Change) {
    && (e.agreementId == AgreementIdOf(c.r0) || e.agreementId == AgreementIdOf(c.r1))
    && (e.agreementState == AgreementStateOf(c.r0) || e.agreementState == AgreementStateOf(c.r1))
    && (e.descriptorState == DescriptorStateOf(c.r0) || e.descriptorState == DescriptorStateOf(c.r1)
        || (c.mark.Some? && e.descriptorState == c.mark))
    && (e.audience == AudienceOf(c.r0) || e.audience == AudienceOf(c.r1))
    && (e.asyncExchange == AsyncOf(c.r0) || e.asyncExchange == AsyncOf(c.r1))
  }

  function AgreementIdOf(r: Rows): Option<Id> {
    if r.agreement.Some? then Some(r.agreement.value.agreementId) else None
  }

  function AgreementStateOf(r: Rows): Option<ItemState> {
    if r.agreement.Some? then Some(r.agreement.value.state) else None
  }

  function DescriptorStateOf(r: Rows): Option<ItemState> {
    if r.catalog.Some? then Some(r.catalog.value.state) else None
  }

  function AudienceOf(r: Rows): Option<seq<string>> {
    if r.catalog.Some? then Some(r.catalog.value.audience) else None
  }

  function AsyncOf(r: Rows): Option<bool> {
    if r.catalog.Some? then r.catalog.value.asyncExchange else None
  }

  lemma EndIsCaught(s: Store, run: Running, pk: TokenPK, c: Change, add: Add, paging: Paging)
    requires PkOk(s, run, pk, c, add, paging) && RunOver(run) && add.pc.AddDone?
    ensures Retrieve(s.platform, pk.purposeId) == c.r1
    ensures pk in s.tokens && Caught(s.tokens[pk], c) && Keeps(s.tokens[pk], c)
  {
  }
}
