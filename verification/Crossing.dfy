/**
 Three parties: an entry is added while its agreement is handled and a descriptor is activated or suspended. Each
 two of them never go wrong about the descriptor state; all three together can, exactly when the agreement moves
 from one descriptor to another and the message changes the state of the one, or sets the other's apart from it.
 */
module Crossing {
  import opened Basics
  import opened TokenKeys
  import opened PlatformModel
  import opened RaceModel
  import opened AuthorizationRace

  // ---- pointers and states ----

  function StateIn(pf: Platform, d: Option<EserviceDescriptor>): Option<ItemState> {
    if d.Some? && d.value in pf.catalog then Some(pf.catalog[d.value].state) else None
  }

  function PointerIn(pf: Platform, owner: ConsumerEservice): Option<EserviceDescriptor> {
    if owner in pf.agreements then Some(EserviceDescriptor(owner.eserviceId, pf.agreements[owner].descriptorId))
      else None
  }

  function ReadState(row: Option<CatalogRow>): Option<ItemState> {
    if row.Some? then Some(row.value.state) else None
  }

  /** The start: rows `pf`, the purpose row of the entry, what the agreement message does, and the catalog message,
      which restates a descriptor. The agreement leads from `d0` to `d1`. */
  datatype Cross = Cross(pf: Platform, p: PurposeRow, action: Agreements.Action, d0: Option<EserviceDescriptor>,
                         d1: Option<EserviceDescriptor>, op: Catalog.Op)

  function Was(x: Cross, d: Option<EserviceDescriptor>): Option<ItemState> {
    StateIn(x.pf, d)
  }

  function Will(x: Cross, d: Option<EserviceDescriptor>): Option<ItemState> {
    StateIn(WriteCatalog(x.pf, x.op), d)
  }

  function Now(x: Cross, awaits: bool, d: Option<EserviceDescriptor>): Option<ItemState> {
    if awaits then Was(x, d) else Will(x, d)
  }

  predicate CrossOk(x: Cross) {
    && x.op.Restate? && x.d0 == PointerIn(x.pf, x.p.Owner())
    && (x.action.Replace? ==> x.d1 == Some(EserviceDescriptor(x.p.eserviceId, x.action.row.descriptorId)))
    && (!x.action.Replace? ==> x.d1 == x.d0)
  }

  /** The agreement moves to another descriptor. The message leaves that one's state, and sets the state of the one
      left behind, if at all, as that one's. */
  predicate Safe(x: Cross) {
    x.d0 != x.d1 && Will(x, x.d1).Some? ==>
      && Was(x, x.d1) == Will(x, x.d1)
      && (Was(x, x.d0) == Will(x, x.d0) || Will(x, x.d0) == Will(x, x.d1))
  }

  // ---- where the messages stand ----

  predicate Awaits(other: Running) {
    other.pc.JobStart? || other.pc.Writing?
  }

  predicate CatalogShape(pf: Platform, other: Running, x: Cross) {
    && other.job == CatalogJob(x.op) && other.later == []
    && (Awaits(other) ==> Lookup(pf.catalog, x.op.key) == Lookup(x.pf.catalog, x.op.key))
    && match other.pc
       case JobStart => true
       case Writing(action) => action.Skip? && Catalog.Proceeds(x.op, Lookup(x.pf.catalog, x.op.key))
       case Walking(action, walk) =>
         action.Skip? && Catalog.Proceeds(x.op, Lookup(x.pf.catalog, x.op.key))
           && walk.patch == Catalog.EntryPatch(x.op)
       case Finished => true
       case _ => false
  }

  predicate BeforeMove(run: Running, x: Cross) {
    x.d0 != x.d1 && (run.pc.JobStart? || run.pc.Writing?)
  }

  function PointerNow(run: Running, x: Cross): Option<EserviceDescriptor> {
    if BeforeMove(run, x) then x.d0 else x.d1
  }

  predicate ReadStateOk(read: Option<CatalogRow>, x: Cross, awaits: bool) {
    ReadState(read) == Was(x, x.d1) || (!awaits && ReadState(read) == Will(x, x.d1))
  }

  predicate MoveWalk(run: Running, walk: Walk)
    requires run.job.AgreementJob?
  {
    walk.patch == MovePatch(run.job.a, walk.catalog)
  }

  predicate AgreementShape(pf: Platform, run: Running, x: Cross, awaits: bool) {
    && run.job.AgreementJob? && run.job.a.Key() == x.p.Owner() && run.later == []
    && (x.action.Replace? ==> x.d1 == Some(run.job.a.Descriptor()))
    && match run.pc
       case JobStart =>
         x.action == Agreements.DecideV2(Lookup(pf.agreements, x.p.Owner()), run.job.event, run.job.a, run.job.version)
       case Writing(action) => action == x.action && (action.Replace? || action.Restate?)
       case Looking(action) => action == x.action && action.Replace?
       case Walking(action, walk) =>
         && action == x.action
         && if action.Replace? then MoveWalk(run, walk) && ReadStateOk(walk.catalog, x, awaits)
            else walk.patch.SetAgreementState?
       case Rechecking(read) => x.action.Replace? && ReadStateOk(read, x, awaits)
       case Rewalking(walk) =>
         x.action.Replace? && MoveWalk(run, walk) && !awaits && ReadState(walk.catalog) == Will(x, x.d1)
       case Retiring(action) => action == x.action && action.Retire?
       case Finished => true
  }

  predicate PlatformOk(pf: Platform, purposeId: Id, run: Running, x: Cross, awaits: bool) {
    && Lookup(pf.purposes, purposeId) == Some(x.p)
    && PointerIn(pf, x.p.Owner()) == PointerNow(run, x)
    && StateIn(pf, x.d0) == Now(x, awaits, x.d0) && StateIn(pf, x.d1) == Now(x, awaits, x.d1)
  }

  // ---- the adder ----

  function ReadPointer(x: Cross, a: Option<AgreementRow>): Option<EserviceDescriptor> {
    if a.Some? then Some(EserviceDescriptor(x.p.eserviceId, a.value.descriptorId)) else None
  }

  predicate PointerReadOk(x: Cross, a: Option<AgreementRow>, before: bool) {
    ReadPointer(x, a) == x.d0 || (!before && ReadPointer(x, a) == x.d1)
  }

  predicate StateReadOk(x: Cross, d: Option<EserviceDescriptor>, state: Option<ItemState>, awaits: bool) {
    state == Was(x, d) || (!awaits && state == Will(x, d))
  }

  predicate MemOk(mem: Entry, x: Cross, before: bool, awaits: bool) {
    && mem.consumerEservice == Some(x.p.Owner())
    && (mem.descriptor == x.d0 || (!before && mem.descriptor == x.d1))
    && StateReadOk(x, mem.descriptor, mem.descriptorState, awaits)
  }

  /** A second read of the agreement is not older than the first. */
  predicate RereadPointerOk(x: Cross, mem: Entry, a: Option<AgreementRow>, before: bool) {
    (ReadPointer(x, a) == x.d0 && mem.descriptor == x.d0) || (!before && ReadPointer(x, a) == x.d1)
  }

  /** Nor is a second read of the same descriptor. */
  predicate RereadStateOk(x: Cross, mem: Entry, r: Rows, awaits: bool) {
    var d, state := ReadPointer(x, r.agreement), ReadState(r.catalog);
    && StateReadOk(x, d, state, awaits)
    && (d == mem.descriptor ==> (!awaits && state == Will(x, d)) || state == mem.descriptorState)
  }

  predicate ReadsOk(x: Cross, add: Add, before: bool, awaits: bool) {
    && (HasPut(add.pc) ==> MemOk(add.pc.mem, x, before, awaits))
    && match add.pc
       case ReadPurpose(p) => p == Some(x.p)
       case ReadAgreement(p, a) => p == Some(x.p) && PointerReadOk(x, a, before)
       case ReadAll(r) =>
         && r.purpose == Some(x.p) && PointerReadOk(x, r.agreement, before) && Chained(r)
         && StateReadOk(x, ReadPointer(x, r.agreement), ReadState(r.catalog), awaits)
       case RereadPurpose(_, p) => p == Some(x.p)
       case RereadAgreement(mem, p, a) => p == Some(x.p) && RereadPointerOk(x, mem, a, before)
       case RereadAll(mem, r) =>
         && r.purpose == Some(x.p) && Chained(r) && RereadPointerOk(x, mem, r.agreement, before)
         && RereadStateOk(x, mem, r, awaits)
       case _ => true
  }

  // ---- the entry ----

  predicate Settled(e: Entry, x: Cross, awaits: bool) {
    e.descriptor == x.d1 && e.descriptorState == Now(x, awaits, x.d1)
  }

  /** The agreement message will move the entry, or write the current state into it. */
  predicate AgreementWill(run: Running, x: Cross, pk: TokenPK, awaits: bool, paging: Paging) {
    x.action.Replace?
    && match run.pc
       case Looking(_) => x.d0 != x.d1
       case Walking(_, walk) =>
         (x.d0 != x.d1 && Ahead(walk, pk, paging)) || ReadState(walk.catalog) != Now(x, awaits, x.d1)
       case Rechecking(read) => ReadState(read) != Now(x, awaits, x.d1)
       case Rewalking(walk) => Ahead(walk, pk, paging)
       case _ => false
  }

  predicate CatalogWill(e: Entry, other: Running, x: Cross, pk: TokenPK, paging: Paging) {
    && e.descriptor == x.d1 && x.d1 == Some(x.op.key)
    && other.pc.Walking? && Ahead(other.pc.walk, pk, paging)
  }

  /** The adder will read the current pointer and state, and its patch settles the entry. */
  predicate AdderWill(e: Entry, pc: AddPc, x: Cross, awaits: bool)
    requires HasPut(pc)
  {
    var now := Now(x, awaits, x.d1);
    && (e.descriptor == x.d1 || pc.mem.descriptor != x.d1)
    && (e.descriptorState == now || pc.mem.descriptorState != now)
    && match pc
       case Written(_) => true
       case RereadPurpose(_, _) => true
       case RereadAgreement(_, _, a) => ReadPointer(x, a) == x.d1
       case RereadAll(_, r) => ReadPointer(x, r.agreement) == x.d1 && ReadState(r.catalog) == now
       case _ => false
  }

  predicate EntryOk(e: Entry, pk: TokenPK, pc: AddPc, run: Running, other: Running, x: Cross, paging: Paging)
    requires HasPut(pc)
  {
    var awaits := Awaits(other);
    && e.consumerEservice == Some(x.p.Owner())
    && (e.descriptor == x.d0 || (!BeforeMove(run, x) && e.descriptor == x.d1))
    && (Will(x, x.d1).Some? && !BeforeMove(run, x) ==>
          || Settled(e, x, awaits) || AgreementWill(run, x, pk, awaits, paging)
          || CatalogWill(e, other, x, pk, paging) || AdderWill(e, pc, x, awaits))
  }

  predicate PkOk(s: Store, run: Running, other: Running, pk: TokenPK, add: Add, x: Cross, paging: Paging) {
    && pk.ClientKidPurpose? && CrossOk(x) && Safe(x)
    && CatalogShape(s.platform, other, x) && AgreementShape(s.platform, run, x, Awaits(other))
    && PlatformOk(s.platform, pk.purposeId, run, x, Awaits(other))
    && ReadsOk(x, add, BeforeMove(run, x), Awaits(other))
    && (HasPut(add.pc) ==> pk in s.tokens && EntryOk(s.tokens[pk], pk, add.pc, run, other, x, paging))
  }

  // ---- the adder's steps ----

  /** What the reads of the agreement and of the descriptor return. */
  lemma ReadsReturn(pf: Platform, purposeId: Id, run: Running, x: Cross, awaits: bool, a: Option<AgreementRow>)
    requires CrossOk(x) && PlatformOk(pf, purposeId, run, x, awaits) && PointerReadOk(x, a, BeforeMove(run, x))
    ensures ReadPointer(x, AgreementOf(pf, Some(x.p))) == PointerNow(run, x)
    ensures ReadState(CatalogOf(pf, Some(x.p), a)) == Now(x, awaits, ReadPointer(x, a))
  {
  }

  lemma FirstReadKeeps(s: Store, run: Running, other: Running, pk: TokenPK, add: Add, x: Cross, paging: Paging)
    requires PkOk(s, run, other, pk, add, x, paging) && !HasPut(add.pc) && !add.pc.ReadAll?
    ensures var (s', add') := AddStep(s, pk, add); PkOk(s', run, other, pk, add', x, paging)
  {
    var a := if add.pc.ReadAgreement? then add.pc.a else AgreementOf(s.platform, Some(x.p));
    assert ReadPointer(x, AgreementOf(s.platform, Some(x.p))) == PointerNow(run, x);
    ReadsReturn(s.platform, pk.purposeId, run, x, Awaits(other), a);
  }

  lemma SecondReadKeeps(s: Store, run: Running, other: Running, pk: TokenPK, add: Add, x: Cross, paging: Paging)
    requires PkOk(s, run, other, pk, add, x, paging) && HasPut(add.pc) && !add.pc.RereadAll?
    ensures var (s', add') := AddStep(s, pk, add); PkOk(s', run, other, pk, add', x, paging)
  {
    var (s', add') := AddStep(s, pk, add);
    var a := if add.pc.RereadAgreement? then add.pc.a else AgreementOf(s.platform, Some(x.p));
    assert ReadPointer(x, AgreementOf(s.platform, Some(x.p))) == PointerNow(run, x);
    ReadsReturn(s.platform, pk.purposeId, run, x, Awaits(other), a);
    assert ReadsOk(x, add', BeforeMove(run, x), Awaits(other));
    assert s' == s && (add.pc.AddDone? ==> add' == add);
    assert !BeforeMove(run, x) && AdderWill(s.tokens[pk], add.pc, x, Awaits(other)) ==>
             AdderWill(s.tokens[pk], add'.pc, x, Awaits(other));
  }

  lemma PutKeeps(s: Store, run: Running, other: Running, pk: TokenPK, add: Add, x: Cross, paging: Paging)
    requires PkOk(s, run, other, pk, add, x, paging) && add.pc.ReadAll?
    ensures var (s', add') := AddStep(s, pk, add); PkOk(s', run, other, pk, add', x, paging)
  {
    var mem := InMemory(add.publicKey, add.pc.r);
    assert mem.descriptor == ReadPointer(x, add.pc.r.agreement) && mem.descriptorState == ReadState(add.pc.r.catalog);
  }

  lemma PatchKeeps(s: Store, run: Running, other: Running, pk: TokenPK, add: Add, x: Cross, paging: Paging)
    requires PkOk(s, run, other, pk, add, x, paging) && add.pc.RereadAll?
    ensures var (s', add') := AddStep(s, pk, add); PkOk(s', run, other, pk, add', x, paging)
  {
    var mem, r, e := add.pc.mem, add.pc.r, s.tokens[pk];
    var e' := SecondRetrieval(e, mem, r);
    assert e'.descriptor == if r.agreement.Some? && mem.descriptor != ReadPointer(x, r.agreement)
                            then ReadPointer(x, r.agreement) else e.descriptor;
    assert e'.descriptorState == if r.catalog.Some? && mem.descriptorState != ReadState(r.catalog)
                                 then ReadState(r.catalog) else e.descriptorState;
  }

  lemma AdderKeeps(s: Store, run: Running, other: Running, pk: TokenPK, add: Add, x: Cross, paging: Paging)
    requires PkOk(s, run, other, pk, add, x, paging)
    ensures var (s', add') := AddStep(s, pk, add); PkOk(s', run, other, pk, add', x, paging)
  {
    if add.pc.ReadAll? {
      PutKeeps(s, run, other, pk, add, x, paging);
    } else if add.pc.RereadAll? {
      PatchKeeps(s, run, other, pk, add, x, paging);
    } else if HasPut(add.pc) {
      SecondReadKeeps(s, run, other, pk, add, x, paging);
    } else {
      FirstReadKeeps(s, run, other, pk, add, x, paging);
    }
  }

  // ---- the agreement message's steps ----

  lemma AgreementOutsideLoops(s: Store, run: Running, other: Running, chosen: TokenPK, pk: TokenPK, add: Add, x: Cross,
                              paging: Paging)
    requires PkOk(s, run, other, pk, add, x, paging)
    requires !run.pc.Walking? && !run.pc.Rewalking? && !run.pc.Writing? && !run.pc.Retiring?
    ensures var (s', run') := RunStep(s, run, chosen, paging); PkOk(s', run', other, pk, add, x, paging)
  {
    var (s', run') := RunStep(s, run, chosen, paging);
    assert s' == s;
  }

  lemma AgreementWrites(s: Store, run: Running, other: Running, chosen: TokenPK, pk: TokenPK, add: Add, x: Cross,
                        paging: Paging)
    requires PkOk(s, run, other, pk, add, x, paging) && (run.pc.Writing? || run.pc.Retiring?)
    ensures var (s', run') := RunStep(s, run, chosen, paging); PkOk(s', run', other, pk, add, x, paging)
  {
    var (s', run') := RunStep(s, run, chosen, paging);
    assert s'.tokens == s.tokens && s'.platform.catalog == s.platform.catalog;
    assert PlatformOk(s'.platform, pk.purposeId, run', x, Awaits(other));
  }

  /** The loop goes on and leaves the entry alone. */
  lemma AgreementPasses(s: Store, run: Running, other: Running, chosen: TokenPK, pk: TokenPK, add: Add, x: Cross,
                        paging: Paging)
    requires PkOk(s, run, other, pk, add, x, paging) && (run.pc.Walking? || run.pc.Rewalking?)
    requires !WalkOver(run.pc.walk, paging) && !(chosen == pk && pk in run.pc.walk.pending)
    ensures var (s', run') := RunStep(s, run, chosen, paging); PkOk(s', run', other, pk, add, x, paging)
  {
    WalkApproaches(s, QueryOf(run.job), run.pc.walk, chosen, pk, paging);
  }

  lemma AgreementWalks(s: Store, run: Running, other: Running, chosen: TokenPK, pk: TokenPK, add: Add, x: Cross,
                       paging: Paging)
    requires PkOk(s, run, other, pk, add, x, paging) && (run.pc.Walking? || run.pc.Rewalking?)
    ensures var (s', run') := RunStep(s, run, chosen, paging); PkOk(s', run', other, pk, add, x, paging)
  {
    var (s', run') := RunStep(s, run, chosen, paging);
    var walk := run.pc.walk;
    if WalkOver(walk, paging) {
      assert s' == s;
    } else if chosen == pk && pk in walk.pending {
      AgreementUpdates(s, run, other, pk, add, x, paging);
    } else {
      AgreementPasses(s, run, other, chosen, pk, add, x, paging);
    }
  }

  lemma AgreementUpdates(s: Store, run: Running, other: Running, pk: TokenPK, add: Add, x: Cross, paging: Paging)
    requires PkOk(s, run, other, pk, add, x, paging) && (run.pc.Walking? || run.pc.Rewalking?)
    requires pk in run.pc.walk.pending
    ensures var (s', run') := RunStep(s, run, pk, paging); PkOk(s', run', other, pk, add, x, paging)
  {
    WalkUpdates(s, QueryOf(run.job), run.pc.walk, pk, paging);
  }

  lemma AgreementKeeps(s: Store, run: Running, other: Running, chosen: TokenPK, pk: TokenPK, add: Add, x: Cross,
                       paging: Paging)
    requires PkOk(s, run, other, pk, add, x, paging)
    ensures var (s', run') := RunStep(s, run, chosen, paging); PkOk(s', run', other, pk, add, x, paging)
  {
    if run.pc.Walking? || run.pc.Rewalking? {
      AgreementWalks(s, run, other, chosen, pk, add, x, paging);
    } else if run.pc.Writing? || run.pc.Retiring? {
      AgreementWrites(s, run, other, chosen, pk, add, x, paging);
    } else {
      AgreementOutsideLoops(s, run, other, chosen, pk, add, x, paging);
    }
  }

  // ---- the catalog message's steps ----

  lemma CatalogReads(s: Store, run: Running, other: Running, chosen: TokenPK, pk: TokenPK, add: Add, x: Cross,
                     paging: Paging)
    requires PkOk(s, run, other, pk, add, x, paging) && !other.pc.Walking? && !other.pc.Writing?
    ensures var (s', other') := RunStep(s, other, chosen, paging); PkOk(s', run, other', pk, add, x, paging)
  {
    var (s', other') := RunStep(s, other, chosen, paging);
    assert s' == s;
  }

  lemma CatalogWrites(s: Store, run: Running, other: Running, chosen: TokenPK, pk: TokenPK, add: Add, x: Cross,
                      paging: Paging)
    requires PkOk(s, run, other, pk, add, x, paging) && other.pc.Writing?
    ensures var (s', other') := RunStep(s, other, chosen, paging); PkOk(s', run, other', pk, add, x, paging)
  {
    var (s', other') := RunStep(s, other, chosen, paging);
    assert s'.tokens == s.tokens && s'.platform.agreements == s.platform.agreements;
    assert Awaits(other) && !Awaits(other');
    assert PlatformOk(s'.platform, pk.purposeId, run, x, false);
  }

  lemma CatalogWalks(s: Store, run: Running, other: Running, chosen: TokenPK, pk: TokenPK, add: Add, x: Cross,
                     paging: Paging)
    requires PkOk(s, run, other, pk, add, x, paging) && other.pc.Walking?
    ensures var (s', other') := RunStep(s, other, chosen, paging); PkOk(s', run, other', pk, add, x, paging)
  {
    var (s', other') := RunStep(s, other, chosen, paging);
    var walk := other.pc.walk;
    if WalkOver(walk, paging) {
      assert s' == s;
    } else if chosen == pk && pk in walk.pending {
      WalkUpdates(s, QueryOf(other.job), walk, pk, paging);
    } else {
      WalkApproaches(s, QueryOf(other.job), walk, chosen, pk, paging);
    }
  }

  lemma CatalogKeeps(s: Store, run: Running, other: Running, chosen: TokenPK, pk: TokenPK, add: Add, x: Cross,
                     paging: Paging)
    requires PkOk(s, run, other, pk, add, x, paging)
    ensures var (s', other') := RunStep(s, other, chosen, paging); PkOk(s', run, other', pk, add, x, paging)
  {
    if other.pc.Walking? {
      CatalogWalks(s, run, other, chosen, pk, add, x, paging);
    } else if other.pc.Writing? {
      CatalogWrites(s, run, other, chosen, pk, add, x, paging);
    } else {
      CatalogReads(s, run, other, chosen, pk, add, x, paging);
    }
  }

  // ---- every interleaving ----

  ghost predicate CrossRace(sys: Sys, pk: TokenPK, x: Cross, paging: Paging) {
    && pk in sys.adds && |sys.jobs| == 2
    && PkOk(sys.store, sys.jobs[0], sys.jobs[1], pk, sys.adds[pk], x, paging)
  }

  lemma StepKeeps(sys: Sys, move: Move, pk: TokenPK, x: Cross, paging: Paging)
    requires CrossRace(sys, pk, x, paging)
    ensures CrossRace(SysStep(sys, move, paging), pk, x, paging)
  {
    var sys' := SysStep(sys, move, paging);
    var run, other, add := sys.jobs[0], sys.jobs[1], sys.adds[pk];
    match move
    case Adder(k) =>
      if k == pk {
        AdderKeeps(sys.store, run, other, pk, add, x, paging);
      } else if k in sys.adds && k.ClientKidPurpose? {
        assert Lookup(sys'.store.tokens, pk) == Lookup(sys.store.tokens, pk);
      }
    case Worker(i, chosen) =>
      if i == 0 {
        AgreementKeeps(sys.store, run, other, chosen, pk, add, x, paging);
      } else if i == 1 {
        CatalogKeeps(sys.store, run, other, chosen, pk, add, x, paging);
      }
  }

  lemma {:induction false} InterleavingKeeps(sys: Sys, moves: seq<Move>, pk: TokenPK, x: Cross, paging: Paging)
    requires CrossRace(sys, pk, x, paging)
    ensures CrossRace(Interleave(sys, moves, paging), pk, x, paging)
    decreases |moves|
  {
    if moves != [] {
      var init := moves[..|moves| - 1];
      InterleavingKeeps(sys, init, pk, x, paging);
      StepKeeps(Interleave(sys, init, paging), moves[|moves| - 1], pk, x, paging);
    }
  }

  /** Both messages unread, and the entry about to be added. */
  predicate CrossStart(sys: Sys, pk: TokenPK, op: Catalog.Op) {
    && pk in sys.adds && sys.adds[pk].pc == AddStart && pk.ClientKidPurpose?
         && pk.purposeId in sys.store.platform.purposes
    && |sys.jobs| == 2 && sys.jobs[1] == Begin([op]) && op.Restate?
    && Unread(sys.jobs[0]) && sys.jobs[0].job.AgreementJob?
    && sys.jobs[0].job.a.Key() == sys.store.platform.purposes[pk.purposeId].Owner()
  }

  function CrossOf(pf: Platform, run: Running, op: Catalog.Op, p: PurposeRow): Cross
    requires run.job.AgreementJob?
  {
    var a := run.job.a;
    var action := Agreements.DecideV2(Lookup(pf.agreements, a.Key()), run.job.event, a, run.job.version);
    var d0 := PointerIn(pf, p.Owner());
    Cross(pf, p, action, d0, if action.Replace? then Some(EserviceDescriptor(p.eserviceId, action.row.descriptorId))
      else d0,
          op)
  }

  lemma StartIsOk(sys: Sys, pk: TokenPK, op: Catalog.Op, paging: Paging)
    requires CrossStart(sys, pk, op)
    requires Safe(CrossOf(sys.store.platform, sys.jobs[0], op, sys.store.platform.purposes[pk.purposeId]))
    ensures CrossRace(sys, pk,
              CrossOf(sys.store.platform, sys.jobs[0], op, sys.store.platform.purposes[pk.purposeId]), paging)
  {
  }

  lemma EndIsSettled(s: Store, run: Running, other: Running, pk: TokenPK, add: Add, x: Cross, paging: Paging)
    requires PkOk(s, run, other, pk, add, x, paging) && RunOver(run) && RunOver(other) && add.pc.AddDone?
    ensures var r := Retrieve(s.platform, pk.purposeId);
            pk in s.tokens && (r.catalog.Some? ==> s.tokens[pk].descriptorState == Some(r.catalog.value.state))
  {
    assert ReadState(Retrieve(s.platform, pk.purposeId).catalog) == StateIn(s.platform, x.d1);
  }

  lemma SafeNeverCrosses(sys: Sys, moves: seq<Move>, pk: TokenPK, op: Catalog.Op, paging: Paging)
    requires CrossStart(sys, pk, op) && AllOver(Interleave(sys, moves, paging))
    requires Safe(CrossOf(sys.store.platform, sys.jobs[0], op, sys.store.platform.purposes[pk.purposeId]))
    ensures var end := Interleave(sys, moves, paging).store;
            var r := Retrieve(end.platform, pk.purposeId);
            pk in end.tokens && (r.catalog.Some? ==> end.tokens[pk].descriptorState == Some(r.catalog.value.state))
  {
    var x := CrossOf(sys.store.platform, sys.jobs[0], op, sys.store.platform.purposes[pk.purposeId]);
    StartIsOk(sys, pk, op, paging);
    InterleavingKeeps(sys, moves, pk, x, paging);
    var end := Interleave(sys, moves, paging);
    EndIsSettled(end.store, end.jobs[0], end.jobs[1], pk, end.adds[pk], x, paging);
  }
}
