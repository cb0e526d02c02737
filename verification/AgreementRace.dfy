/**
 Moving an agreement's entries to a descriptor races with a catalog message, and the second check closes the
 race: in every interleaving each entry of the consumer and e-service ends with the agreement and at its
 descriptor. The state, lifespan and audience are those of the descriptor's final row, but for two cases: an
 update of the descriptor left behind that is not conditional on the pointer, and a row that changed without
 changing its state. `OpenMoves` shows that these two always go wrong in some interleaving.
 */
module AgreementRace {
  import opened Basics
  import opened TokenKeys
  import opened PlatformModel
  import opened RaceModel
  import CacheInvariant

  /** A field that the entry repeats from the descriptor row. */
  datatype Field = State | Lifespan | Audience

  predicate Shows(e: Entry, row: CatalogRow, f: Field) {
    match f
    case State => e.descriptorState == Some(row.state)
    case Lifespan => CacheInvariant.LifespanMatches(e.lifespan, row.lifespan)
    case Audience => e.audience == Some(row.audience)
  }

  predicate Same(x: CatalogRow, y: CatalogRow, f: Field) {
    match f
    case State => x.state == y.state
    case Lifespan => x.lifespan == y.lifespan
    case Audience => x.audience == y.audience
  }

  /** The flow writes the field into each entry that it finds, wherever the entry points by then. */
  predicate SetsAnyway(op: Catalog.Op, f: Field) {
    op.Publish? || (op.Requota? && f.Lifespan?)
  }

  predicate Sets(op: Catalog.Op, f: Field) {
    SetsAnyway(op, f) || (op.Restate? && f.State?)
  }

  /** The flow, if it sets the field anyway, sets it as in the row. */
  predicate Agrees(op: Catalog.Op, row: CatalogRow, f: Field) {
    match op
    case Publish(_, r) => Same(r, row, f)
    case Requota(_, lifespan, _) => f.Lifespan? ==> lifespan == row.lifespan
    case _ => true
  }

  /** Agreement `a` and the first flow of a catalog message; the agreement's descriptor has row `b` before and `n`
      after the message, and the first flow found row `k`; `e` is the entry at the start. */
  datatype Race = Race(a: Agreements.Agreement, first: Catalog.Op, b: Option<CatalogRow>, n: Option<CatalogRow>,
                       k: Option<CatalogRow>, e: Entry, f: Field)

  predicate RowsOk(x: Race) {
    && x.e.consumerEservice == Some(x.a.Key())
    && if x.first.key == x.a.Descriptor()
       then x.k == x.b && x.n == (if Catalog.Proceeds(x.first, x.b) then Catalog.WrittenRow(x.first, x.b) else x.b)
       else x.n.Some? ==> x.n == x.b
  }

  /** The row changed without changing its state, so the second check does not see it. */
  predicate Unnoticed(x: Race) {
    x.b.Some? && x.n.Some? && x.b.value.state == x.n.value.state && !Same(x.b.value, x.n.value, x.f)
  }

  /** The entry points to another descriptor, and the first flow sets the field anyway, and otherwise. */
  predicate Lands(x: Race) {
    && x.n.Some? && x.first.key != x.a.Descriptor() && x.e.descriptor == Some(x.first.key)
    && Catalog.Proceeds(x.first, x.k) && SetsAnyway(x.first, x.f) && !Agrees(x.first, x.n.value, x.f)
  }

  predicate Fresh(e: Entry, now: Option<CatalogRow>, f: Field) {
    now.Some? ==> Shows(e, now.value, f)
  }

  /** The row shows the field otherwise than an earlier read of it. */
  predicate Outdated(read: Option<CatalogRow>, now: Option<CatalogRow>, f: Field) {
    now.Some? && (read.None? || !Same(read.value, now.value, f))
  }

  // ---- where the two messages stand ----

  /** The catalog message has not written the row of the agreement's descriptor yet. */
  predicate Awaits(run: Running, x: Race)
    requires run.job.CatalogJob?
  {
    || (run.job.op.key == x.a.Descriptor() && (run.pc.JobStart? || run.pc.Writing?))
    || exists op <- run.later :: op.key == x.a.Descriptor()
  }

  function Now(run: Running, x: Race): Option<CatalogRow>
    requires run.job.CatalogJob?
  {
    if Awaits(run, x) then x.b else x.n
  }

  predicate ReadOk(read: Option<CatalogRow>, x: Race, awaits: bool) {
    read == x.b || (!awaits && read == x.n)
  }

  predicate AgreementShape(pf: Platform, run: Running, x: Race, awaits: bool) {
    && run.job.AgreementJob? && run.job.a == x.a && run.later == []
    && match run.pc
       case JobStart => Agreements.DecideV2(Lookup(pf.agreements, x.a.Key()), run.job.event, x.a,
         run.job.version).Replace?
       case Writing(action) => action.Replace?
       case Looking(action) => action.Replace?
       case Walking(action, walk) =>
         action.Replace? && walk.patch == MovePatch(x.a, walk.catalog) && ReadOk(walk.catalog, x, awaits)
       case Rechecking(read) => ReadOk(read, x, awaits)
       case Rewalking(walk) =>
         walk.patch == MovePatch(x.a, walk.catalog) && (x.n.Some? ==> !awaits && walk.catalog == x.n)
       case Retiring(_) => false
       case Finished => true
  }

  predicate CatalogShape(pf: Platform, run: Running, x: Race) {
    && run.job.CatalogJob? && Catalog.Leads(run.job.op, run.later)
    && (forall op <- run.later :: op.Archive? && op.key != x.first.key && (op.key == x.a.Descriptor() ==> x.n.None?))
    && (run.job.op == x.first
        || (run.job.op.Archive? && run.job.op.key != x.first.key && (run.job.op.key == x.a.Descriptor() ==> x.n.None?)))
    && match run.pc
       case JobStart => run.job.op == x.first ==> Lookup(pf.catalog, x.first.key) == x.k
       case Writing(action) =>
         && action.Skip?
         && (run.job.op == x.first ==> Lookup(pf.catalog, x.first.key) == x.k && Catalog.Proceeds(x.first, x.k))
       case Walking(action, walk) =>
         && action.Skip? && walk.patch == Catalog.EntryPatch(run.job.op)
         && (run.job.op == x.first ==> Catalog.Proceeds(x.first, x.k))
       case Finished => true
       case _ => false
  }

  // ---- the entry ----

  /** The first walk of the agreement message is past the entry. */
  predicate Moved(pc: JobPc, pk: TokenPK, paging: Paging) {
    pc.Rechecking? || pc.Rewalking? || pc.Finished? || (pc.Walking? && !Ahead(pc.walk, pk, paging))
  }

  /** The agreement message will write the current field into the entry. */
  predicate AgreementWill(pc: JobPc, pk: TokenPK, now: Option<CatalogRow>, f: Field, paging: Paging) {
    || (pc.Walking? && Outdated(pc.walk.catalog, now, f))
    || (pc.Rechecking? && Outdated(pc.catalog, now, f))
    || (pc.Rewalking? && Ahead(pc.walk, pk, paging))
  }

  /** The catalog message will write the current field into the entry. */
  predicate CatalogWill(run: Running, x: Race, pk: TokenPK, paging: Paging)
    requires run.job.CatalogJob?
  {
    run.job.op.key == x.a.Descriptor() && Sets(run.job.op, x.f) && run.pc.Walking? && Ahead(run.pc.walk, pk, paging)
  }

  /** The catalog message only ever finds the entry where it was or has moved to. */
  predicate PointsOk(e: Entry, run: Running, x: Race, pk: TokenPK)
    requires run.job.CatalogJob?
  {
    && e.consumerEservice == Some(x.a.Key())
    && (e.descriptor == x.e.descriptor || e.descriptor == Some(x.a.Descriptor()))
    && (run.pc.Walking? && pk in run.pc.walk.pending && run.job.op.key != x.a.Descriptor() ==>
          x.e.descriptor == Some(run.job.op.key))
  }

  predicate MovedOk(e: Entry, x: Race) {
    && e.agreementId == Some(x.a.id) && e.agreementState == Some(Agreements.ItemStateOf(x.a.state))
    && e.producerId == Some(x.a.producerId) && e.descriptor == Some(x.a.Descriptor())
  }

  /** Once moved, the entry carries the agreement; and if the two messages leave its field to be right, the field is
      right or will be. */
  predicate EntryOk(e: Entry, pk: TokenPK, x: Race, pc: JobPc, run: Running, paging: Paging)
    requires run.job.CatalogJob?
  {
    && PointsOk(e, run, x, pk)
    && (Moved(pc, pk, paging) ==>
          && MovedOk(e, x)
          && (x.n.Some? && !Unnoticed(x) && !Lands(x) ==>
                || Fresh(e, Now(run, x), x.f) || AgreementWill(pc, pk, Now(run, x), x.f, paging)
                || CatalogWill(run, x, pk, paging)))
  }

  ghost predicate PkOk(s: Store, run: Running, other: Running, pk: TokenPK, x: Race, paging: Paging) {
    && RowsOk(x) && CatalogShape(s.platform, other, x) && AgreementShape(s.platform, run, x, Awaits(other, x))
    && Lookup(s.platform.catalog, x.a.Descriptor()) == Now(other, x)
    && pk in s.tokens && EntryOk(s.tokens[pk], pk, x, run.pc, other, paging)
  }

  // ---- single updates ----

  lemma MoveWrites(e: Entry, x: Race, read: Option<CatalogRow>, now: Option<CatalogRow>)
    ensures var e' := Apply(MovePatch(x.a, read), e);
            && e'.consumerEservice == e.consumerEservice && MovedOk(e', x)
            && (Fresh(e', now, x.f) || Outdated(read, now, x.f))
  {
  }

  /** The field that a flow sets is the one of the row it wrote. */
  lemma FlowWrites(e: Entry, op: Catalog.Op, row: Option<CatalogRow>, f: Field)
    requires Catalog.Proceeds(op, row) && Sets(op, f) && e.descriptor == Some(op.key)
    ensures Fresh(Apply(Catalog.EntryPatch(op), e), Catalog.WrittenRow(op, row), f)
  {
  }

  /** A row whose field the flow does not set keeps it. */
  lemma FlowKeepsField(op: Catalog.Op, row: Option<CatalogRow>, f: Field)
    requires Catalog.Proceeds(op, row) && !op.Archive? && !Sets(op, f)
    ensures row.Some? && Catalog.WrittenRow(op, row).Some? && Same(row.value, Catalog.WrittenRow(op, row).value, f)
  {
  }

  /** An update of another descriptor that reaches a moved entry leaves the field alone, or sets it as in the row. */
  lemma LandedIsFresh(e: Entry, op: Catalog.Op, x: Race)
    requires e.descriptor == Some(x.a.Descriptor()) && op.key != x.a.Descriptor() && x.n.Some?
    requires Agrees(op, x.n.value, x.f) || !SetsAnyway(op, x.f)
    ensures var e' := Apply(Catalog.EntryPatch(op), e);
            && MovedOk(e', x) == MovedOk(e, x) && e'.consumerEservice == e.consumerEservice
            && (SetsAnyway(op, x.f) ==> Shows(e', x.n.value, x.f))
            && (!SetsAnyway(op, x.f) ==> forall row: CatalogRow :: Shows(e', row, x.f) == Shows(e, row, x.f))
  {
  }

  // ---- the agreement message's steps ----

  lemma AgreementOutsideLoops(s: Store, run: Running, other: Running, chosen: TokenPK, pk: TokenPK, x: Race,
                              paging: Paging)
    requires PkOk(s, run, other, pk, x, paging)
    requires run.pc.JobStart? || run.pc.Writing? || run.pc.Looking? || run.pc.Finished?
    ensures var (s', run') := RunStep(s, run, chosen, paging); PkOk(s', run', other, pk, x, paging)
  {
    var (s', run') := RunStep(s, run, chosen, paging);
    assert s'.tokens == s.tokens && s'.platform.catalog == s.platform.catalog;
    assert Moved(run'.pc, pk, paging) ==> run'.pc == run.pc;
  }

  lemma AgreementRechecks(s: Store, run: Running, other: Running, chosen: TokenPK, pk: TokenPK, x: Race, paging: Paging)
    requires PkOk(s, run, other, pk, x, paging) && run.pc.Rechecking?
    ensures var (s', run') := RunStep(s, run, chosen, paging); PkOk(s', run', other, pk, x, paging)
  {
  }

  lemma AgreementWalks(s: Store, run: Running, other: Running, chosen: TokenPK, pk: TokenPK, x: Race, paging: Paging)
    requires PkOk(s, run, other, pk, x, paging) && (run.pc.Walking? || run.pc.Rewalking?)
    ensures var (s', run') := RunStep(s, run, chosen, paging); PkOk(s', run', other, pk, x, paging)
  {
    var (s', run') := RunStep(s, run, chosen, paging);
    var walk, now := run.pc.walk, Now(other, x);
    if WalkOver(walk, paging) {
      assert s' == s;
    } else if chosen == pk && pk in walk.pending {
      WalkUpdates(s, QueryOf(run.job), walk, pk, paging);
      MoveWrites(s.tokens[pk], x, walk.catalog, now);
      assert s'.tokens[pk] == Apply(walk.patch, s.tokens[pk]);
    } else {
      WalkApproaches(s, QueryOf(run.job), walk, chosen, pk, paging);
      assert Moved(run'.pc, pk, paging) ==> Moved(run.pc, pk, paging);
    }
  }

  lemma AgreementKeeps(s: Store, run: Running, other: Running, chosen: TokenPK, pk: TokenPK, x: Race, paging: Paging)
    requires PkOk(s, run, other, pk, x, paging)
    ensures var (s', run') := RunStep(s, run, chosen, paging); PkOk(s', run', other, pk, x, paging)
  {
    if run.pc.Walking? || run.pc.Rewalking? {
      AgreementWalks(s, run, other, chosen, pk, x, paging);
    } else if run.pc.Rechecking? {
      AgreementRechecks(s, run, other, chosen, pk, x, paging);
    } else {
      AgreementOutsideLoops(s, run, other, chosen, pk, x, paging);
    }
  }

  // ---- the catalog message's steps ----

  lemma NextFlow(s: Store, run: Running, other: Running, chosen: TokenPK, pk: TokenPK, x: Race, paging: Paging)
    requires PkOk(s, run, other, pk, x, paging) && other.pc.Finished? && other.later != []
    ensures var (s', other') := RunStep(s, other, chosen, paging); PkOk(s', run, other', pk, x, paging)
  {
    var other' := Begin(other.later);
    Catalog.LeadsOn(other.job.op, other.later);
    assert other.later == [other'.job.op] + other'.later;
    assert Awaits(other', x) == Awaits(other, x);
  }

  lemma FlowStarts(s: Store, run: Running, other: Running, chosen: TokenPK, pk: TokenPK, x: Race, paging: Paging)
    requires PkOk(s, run, other, pk, x, paging) && other.pc.JobStart?
    ensures var (s', other') := RunStep(s, other, chosen, paging); PkOk(s', run, other', pk, x, paging)
  {
  }

  /** Where the flow proceeds, it writes the descriptor's final row, or the row of another descriptor. */
  lemma FlowWritesRow(s: Store, run: Running, other: Running, chosen: TokenPK, pk: TokenPK, x: Race, paging: Paging)
    requires PkOk(s, run, other, pk, x, paging) && other.pc.Writing?
    ensures var (s', other') := RunStep(s, other, chosen, paging); PkOk(s', run, other', pk, x, paging)
  {
    var (s', other') := RunStep(s, other, chosen, paging);
    var op := other.job.op;
    if op.key == x.a.Descriptor() {
      assert Awaits(other, x) && !Awaits(other', x);
      if op == x.first && !Sets(op, x.f) && !op.Archive? { FlowKeepsField(op, x.b, x.f); }
      assert AgreementShape(s'.platform, run, x, false);
    } else {
      assert Awaits(other', x) == Awaits(other, x);
    }
    assert CatalogShape(s'.platform, other', x);
  }

  lemma FlowUpdates(s: Store, run: Running, other: Running, pk: TokenPK, x: Race, paging: Paging)
    requires PkOk(s, run, other, pk, x, paging) && other.pc.Walking? && pk in other.pc.walk.pending
    ensures var (s', other') := RunStep(s, other, pk, paging); PkOk(s', run, other', pk, x, paging)
  {
    var (s', other') := RunStep(s, other, pk, paging);
    var op, e, walk := other.job.op, s.tokens[pk], other.pc.walk;
    var e' := Apply(walk.patch, e);
    WalkUpdates(s, QueryOf(other.job), walk, pk, paging);
    assert s'.tokens[pk] == e' && Awaits(other', x) == Awaits(other, x);
    if Moved(run.pc, pk, paging) && x.n.Some? {
      if op.key != x.a.Descriptor() {
        if !Lands(x) { LandedIsFresh(e, op, x); }
      } else if Sets(op, x.f) {
        FlowWrites(e, op, x.k, x.f);
      }
    }
    assert PointsOk(e', other', x, pk);
  }

  lemma FlowWalks(s: Store, run: Running, other: Running, chosen: TokenPK, pk: TokenPK, x: Race, paging: Paging)
    requires PkOk(s, run, other, pk, x, paging) && other.pc.Walking?
    ensures var (s', other') := RunStep(s, other, chosen, paging); PkOk(s', run, other', pk, x, paging)
  {
    var (s', other') := RunStep(s, other, chosen, paging);
    var walk := other.pc.walk;
    if WalkOver(walk, paging) {
      assert s' == s && Awaits(other', x) == Awaits(other, x);
    } else if chosen == pk && pk in walk.pending {
      FlowUpdates(s, run, other, pk, x, paging);
    } else {
      WalkApproaches(s, QueryOf(other.job), walk, chosen, pk, paging);
      assert s'.tokens[pk] == s.tokens[pk] && Awaits(other', x) == Awaits(other, x);
      assert PointsOk(s'.tokens[pk], other', x, pk);
    }
  }

  lemma CatalogKeeps(s: Store, run: Running, other: Running, chosen: TokenPK, pk: TokenPK, x: Race, paging: Paging)
    requires PkOk(s, run, other, pk, x, paging)
    ensures var (s', other') := RunStep(s, other, chosen, paging); PkOk(s', run, other', pk, x, paging)
  {
    if other.pc.Finished? && other.later != [] {
      NextFlow(s, run, other, chosen, pk, x, paging);
    } else if other.pc.JobStart? {
      FlowStarts(s, run, other, chosen, pk, x, paging);
    } else if other.pc.Writing? {
      FlowWritesRow(s, run, other, chosen, pk, x, paging);
    } else if other.pc.Walking? {
      FlowWalks(s, run, other, chosen, pk, x, paging);
    }
  }

  // ---- every interleaving ----

  /** Two messages over shared tables; entries under other keys may be added meanwhile. */
  ghost predicate RaceOk(sys: Sys, pk: TokenPK, x: Race, paging: Paging) {
    && pk !in sys.adds && |sys.jobs| == 2
    && PkOk(sys.store, sys.jobs[0], sys.jobs[1], pk, x, paging)
  }

  lemma StepKeeps(sys: Sys, move: Move, pk: TokenPK, x: Race, paging: Paging)
    requires RaceOk(sys, pk, x, paging)
    ensures RaceOk(SysStep(sys, move, paging), pk, x, paging)
  {
    match move
    case Adder(k) =>
      var sys' := SysStep(sys, move, paging);
      assert Lookup(sys'.store.tokens, pk) == Lookup(sys.store.tokens, pk) && sys'.store.platform == sys.store.platform;
    case Worker(i, chosen) =>
      if i == 0 {
        AgreementKeeps(sys.store, sys.jobs[0], sys.jobs[1], chosen, pk, x, paging);
      } else if i == 1 {
        CatalogKeeps(sys.store, sys.jobs[0], sys.jobs[1], chosen, pk, x, paging);
      }
  }

  lemma {:induction false} InterleavingKeeps(sys: Sys, moves: seq<Move>, pk: TokenPK, x: Race, paging: Paging)
    requires RaceOk(sys, pk, x, paging)
    ensures RaceOk(Interleave(sys, moves, paging), pk, x, paging)
    decreases |moves|
  {
    if moves != [] {
      var init := moves[..|moves| - 1];
      InterleavingKeeps(sys, init, pk, x, paging);
      StepKeeps(Interleave(sys, init, paging), moves[|moves| - 1], pk, x, paging);
    }
  }

  // ---- the result ----

  function RaceOf(s: Store, a: Agreements.Agreement, ops: seq<Catalog.Op>, pk: TokenPK, f: Field): Race
    requires ops != [] && pk in s.tokens
  {
    Race(a, ops[0], Lookup(s.platform.catalog, a.Descriptor()), Catalog.RowAfter(s.platform, ops, a.Descriptor()),
         Lookup(s.platform.catalog, ops[0].key), s.tokens[pk], f)
  }

  /** An agreement message that will move entries, and a catalog message, both about to begin, while entries under
      other keys may be added. */
  predicate RaceStart(sys: Sys, ops: seq<Catalog.Op>, pk: TokenPK) {
    && pk !in sys.adds && |sys.jobs| == 2 && Catalog.IsMessage(ops) && sys.jobs[1] == Begin(ops)
    && var run := sys.jobs[0];
       && Unread(run) && run.job.AgreementJob?
       && Agreements.DecideV2(Lookup(sys.store.platform.agreements, run.job.a.Key()), run.job.event, run.job.a,
                              run.job.version).Replace?
       && pk in sys.store.tokens && sys.store.tokens[pk].consumerEservice == Some(run.job.a.Key())
  }

  lemma StartIsOk(sys: Sys, ops: seq<Catalog.Op>, pk: TokenPK, f: Field, paging: Paging)
    requires RaceStart(sys, ops, pk)
    ensures RaceOk(sys, pk, RaceOf(sys.store, sys.jobs[0].job.a, ops, pk, f), paging)
  {
    var x := RaceOf(sys.store, sys.jobs[0].job.a, ops, pk, f);
    StartRowsOk(sys.store, x.a, ops, pk, f);
    StartShapeOk(sys.store, x.a, ops, pk, f);
  }

  lemma StartRowsOk(s: Store, a: Agreements.Agreement, ops: seq<Catalog.Op>, pk: TokenPK, f: Field)
    requires Catalog.IsMessage(ops) && pk in s.tokens && s.tokens[pk].consumerEservice == Some(a.Key())
    ensures RowsOk(RaceOf(s, a, ops, pk, f))
    ensures forall op <- ops[1..] | op.key == a.Descriptor() :: RaceOf(s, a, ops, pk, f).n.None?
  {
    Catalog.OpOnIs(ops, a.Descriptor());
    assert ops[0] in ops;
    forall op | op in ops[1..] ensures op in ops && op.Archive? {
      var i :| 0 <= i < |ops| - 1 && ops[1..][i] == op;
      assert ops[i + 1] == op;
    }
    var x := Catalog.OpOn(ops, a.Descriptor());
    assert x.Some? && x.value != ops[0] ==> x.value in ops[1..] by {
      assert ops == [ops[0]] + ops[1..];
    }
  }

  lemma StartShapeOk(s: Store, a: Agreements.Agreement, ops: seq<Catalog.Op>, pk: TokenPK, f: Field)
    requires Catalog.IsMessage(ops) && pk in s.tokens && s.tokens[pk].consumerEservice == Some(a.Key())
    ensures var x := RaceOf(s, a, ops, pk, f);
            && CatalogShape(s.platform, Begin(ops), x)
            && Lookup(s.platform.catalog, a.Descriptor()) == Now(Begin(ops), x)
  {
    var x := RaceOf(s, a, ops, pk, f);
    StartRowsOk(s, a, ops, pk, f);
    Catalog.OpOnIs(ops, a.Descriptor());
    assert [ops[0]] + ops[1..] == ops;
    Catalog.LeadsIs(ops[0], ops[1..]);
    forall op | op in ops[1..] ensures op in ops && op.Archive? && op.key != ops[0].key {
      var i :| 0 <= i < |ops| - 1 && ops[1..][i] == op;
      assert ops[i + 1] == op;
    }
    if x.b != x.n {
      var op := Catalog.OpOn(ops, a.Descriptor()).value;
      assert op == ops[0] || op in ops[1..];
    }
  }

  /** The race is closed: whatever the interleaving and the paging, when both messages are handled each entry of the
      consumer and e-service carries the agreement, and each field of the descriptor's final row that is neither
      unnoticed nor landed on. */
  lemma SecondCheckClosesTheRace(sys: Sys, ops: seq<Catalog.Op>, moves: seq<Move>, paging: Paging, pk: TokenPK,
                                 f: Field)
    requires RaceStart(sys, ops, pk) && AllOver(Interleave(sys, moves, paging))
    ensures var end, a := Interleave(sys, moves, paging).store, sys.jobs[0].job.a;
            var x, now := RaceOf(sys.store, a, ops, pk, f), Lookup(end.platform.catalog, a.Descriptor());
            && now == x.n && pk in end.tokens && MovedOk(end.tokens[pk], x)
            && (now.Some? && !Unnoticed(x) && !Lands(x) ==> Shows(end.tokens[pk], now.value, f))
  {
    var x := RaceOf(sys.store, sys.jobs[0].job.a, ops, pk, f);
    StartIsOk(sys, ops, pk, f, paging);
    InterleavingKeeps(sys, moves, pk, x, paging);
    var end := Interleave(sys, moves, paging);
    assert RunOver(end.jobs[0]) && RunOver(end.jobs[1]);
  }
}
