/**
 Stretches of an interleaving in which one party runs alone. A message that runs alone, call by call, has
 exactly its sequential meaning, whatever the paging.
 */
module Schedules {
  import opened Basics
  import opened TokenKeys
  import opened PlatformModel
  import opened RaceModel
  import opened TokenGenStore

  ghost predicate Possible(start: Sys, now: Sys, paging: Paging) {
    exists moves :: Interleave(start, moves, paging) == now
  }

  /** Every interleaving that ends leaves such tables. */
  ghost predicate Always(start: Sys, paging: Paging, good: Store -> bool) {
    forall moves :: AllOver(Interleave(start, moves, paging)) ==> good(Interleave(start, moves, paging).store)
  }

  /** A set of states that every move stays in. */
  ghost predicate Closed(reached: Sys -> bool, paging: Paging) {
    forall sys: Sys, move: Move {:trigger SysStep(sys, move, paging)} | reached(sys) ::
      reached(SysStep(sys, move, paging))
  }

  ghost function PossibleFrom(start: Sys, paging: Paging): Sys -> bool {
    sys => Possible(start, sys, paging)
  }

  lemma PossibleStep(start: Sys, now: Sys, move: Move, paging: Paging)
    requires Possible(start, now, paging)
    ensures Possible(start, SysStep(now, move, paging), paging)
  {
    var moves :| Interleave(start, moves, paging) == now;
    var longer := moves + [move];
    assert longer[..|moves|] == moves;
    assert Interleave(start, longer, paging) == SysStep(now, move, paging);
  }

  lemma PossibleIsClosed(start: Sys, paging: Paging)
    ensures Closed(PossibleFrom(start, paging), paging) && PossibleFrom(start, paging)(start)
  {
    assert Interleave(start, [], paging) == start;
    forall sys: Sys, move: Move | PossibleFrom(start, paging)(sys)
      ensures PossibleFrom(start, paging)(SysStep(sys, move, paging))
    {
      PossibleStep(start, sys, move, paging);
    }
  }

  /** One complete interleaving with other tables refutes a claim about all of them. */
  lemma Refutes(start: Sys, end: Sys, paging: Paging, good: Store -> bool)
    requires Possible(start, end, paging) && AllOver(end) && !good(end.store)
    ensures !Always(start, paging, good)
  {
  }

  // ---- moves ----

  lemma AdderMoves(reached: Sys -> bool, sys: Sys, pk: TokenPK, paging: Paging)
    requires Closed(reached, paging) && reached(sys) && pk in sys.adds && pk.ClientKidPurpose?
    ensures var (s', add') := AddStep(sys.store, pk, sys.adds[pk]);
            reached(Sys(s', sys.adds[pk := add'], sys.jobs))
  {
    assert reached(SysStep(sys, Adder(pk), paging));
  }

  lemma WorkerMoves(reached: Sys -> bool, sys: Sys, i: nat, chosen: TokenPK, paging: Paging)
    requires Closed(reached, paging) && reached(sys) && i < |sys.jobs|
    ensures var (s', run') := RunStep(sys.store, sys.jobs[i], chosen, paging);
            reached(Sys(s', sys.adds, sys.jobs[i := run']))
  {
    assert reached(SysStep(sys, Worker(i, chosen), paging));
  }

  /** The system once message `i` stands elsewhere, over other tables. */
  function At(sys: Sys, i: nat, s: Store, run: Running): Sys
    requires i < |sys.jobs|
  {
    Sys(s, sys.adds, sys.jobs[i := run])
  }

  lemma WorkerMovesAt(reached: Sys -> bool, sys: Sys, i: nat, s: Store, run: Running, chosen: TokenPK, paging: Paging)
    requires Closed(reached, paging) && i < |sys.jobs| && reached(At(sys, i, s, run))
    ensures var (s', run') := RunStep(s, run, chosen, paging);
            reached(At(sys, i, s', run'))
  {
    var (s', run') := RunStep(s, run, chosen, paging);
    WorkerMoves(reached, At(sys, i, s, run), i, chosen, paging);
    assert sys.jobs[i := run][i := run'] == sys.jobs[i := run'];
  }

  // ---- a loop ----

  function Looping(run: Running, action: Agreements.Action, walk: Walk): Running {
    run.(pc := Walking(action, walk))
  }

  /** The entries of a page, one by one. */
  lemma {:induction false} Drains(reached: Sys -> bool, sys: Sys, i: nat, s: Store, run: Running,
                                  action: Agreements.Action, walk: Walk, paging: Paging)
    requires Closed(reached, paging) && i < |sys.jobs| && reached(At(sys, i, s, Looping(run, action, walk)))
    ensures reached(At(sys, i, s.(tokens := Patched(s.tokens, walk.patch, walk.pending)),
                       Looping(run, action, walk.(pending := {}))))
    decreases |walk.pending|
  {
    if walk.pending == {} {
      assert Patched(s.tokens, walk.patch, {}) == s.tokens;
    } else {
      var pk :| pk in walk.pending;
      var walk' := walk.(pending := walk.pending - {pk});
      var s' := s.(tokens := Patched(s.tokens, walk.patch, {pk}));
      WorkerMovesAt(reached, sys, i, s, Looping(run, action, walk), pk, paging);
      assert pk in s.tokens ==> s.tokens[pk := Apply(walk.patch, s.tokens[pk])] == s'.tokens;
      assert pk !in s.tokens ==> s.tokens == s'.tokens;
      Drains(reached, sys, i, s', run, action, walk', paging);
      assert Patched(s'.tokens, walk.patch, walk'.pending) == Patched(s.tokens, walk.patch, walk.pending);
    }
  }

  /** The selected entries of pages `page` up to `n`. */
  function OnPages(tokens: Tokens, q: Query, page: nat, n: nat, paging: Paging): set<TokenPK> {
    set k | k in tokens && Selects(q, k, tokens[k]) && page <= paging.Index(k) < n
  }

  /** Whole pages. */
  lemma {:induction false} WalksTo(reached: Sys -> bool, sys: Sys, i: nat, s: Store, run: Running,
                                   action: Agreements.Action, walk: Walk, n: nat, paging: Paging)
    requires Closed(reached, paging) && i < |sys.jobs| && reached(At(sys, i, s, Looping(run, action, walk)))
    requires walk.pending == {} && walk.page <= n <= paging.last + 1 && Stable(QueryOf(run.job), walk.patch)
    ensures var done := OnPages(s.tokens, QueryOf(run.job), walk.page, n, paging);
            reached(At(sys, i, s.(tokens := Patched(s.tokens, walk.patch, done)),
              Looping(run, action, walk.(page := n))))
    decreases n - walk.page
  {
    var q := QueryOf(run.job);
    if walk.page == n {
      assert Patched(s.tokens, walk.patch, OnPages(s.tokens, q, n, n, paging)) == s.tokens;
    } else {
      var read := walk.(page := walk.page + 1, pending := OnPages(s.tokens, q, walk.page, walk.page + 1, paging));
      ReadsPage(reached, sys, i, s, run, action, walk, paging);
      Drains(reached, sys, i, s, run, action, read, paging);
      var s' := s.(tokens := Patched(s.tokens, walk.patch, read.pending));
      WalksTo(reached, sys, i, s', run, action, read.(pending := {}), n, paging);
      assert OnPages(s'.tokens, q, walk.page + 1, n, paging) == OnPages(s.tokens, q, walk.page + 1, n, paging);
      PatchedTwice(s.tokens, walk.patch, read.pending, OnPages(s.tokens, q, walk.page + 1, n, paging));
      assert read.pending + OnPages(s.tokens, q, walk.page + 1, n, paging)
               == OnPages(s.tokens, q, walk.page, n, paging);
    }
  }

  lemma PatchedTwice(tokens: Tokens, p: Patch, x: set<TokenPK>, y: set<TokenPK>)
    requires x !! y
    ensures Patched(Patched(tokens, p, x), p, y) == Patched(tokens, p, x + y)
  {
  }

  lemma ReadsPage(reached: Sys -> bool, sys: Sys, i: nat, s: Store, run: Running, action: Agreements.Action, walk: Walk,
                  paging: Paging)
    requires Closed(reached, paging) && i < |sys.jobs| && reached(At(sys, i, s, Looping(run, action, walk)))
    requires walk.pending == {} && walk.page <= paging.last
    ensures var pending := OnPages(s.tokens, QueryOf(run.job), walk.page, walk.page + 1, paging);
            reached(At(sys, i, s, Looping(run, action, walk.(page := walk.page + 1, pending := pending))))
  {
    var chosen := ClientKid("", "");
    WorkerMovesAt(reached, sys, i, s, Looping(run, action, walk), chosen, paging);
    var q := QueryOf(run.job);
    assert OnPages(s.tokens, q, walk.page, walk.page + 1, paging)
        == set k | k in s.tokens && Selects(q, k, s.tokens[k]) && paging.Index(k) == walk.page;
  }

  /** A whole loop. */
  lemma Loops(reached: Sys -> bool, sys: Sys, i: nat, s: Store, run: Running, action: Agreements.Action, patch: Patch,
              catalog: Option<CatalogRow>, paging: Paging)
    requires Closed(reached, paging) && i < |sys.jobs|
    requires reached(At(sys, i, s, Looping(run, action, StartWalk(patch, catalog))))
    requires Stable(QueryOf(run.job), patch)
    ensures reached(At(sys, i, s.(tokens := PatchAll(s.tokens, QueryOf(run.job), patch)),
                       run.(pc := AfterWalk(action, StartWalk(patch, catalog)))))
  {
    var q, walk, n := QueryOf(run.job), StartWalk(patch, catalog), paging.last + 1;
    WalksTo(reached, sys, i, s, run, action, walk, n, paging);
    assert OnPages(s.tokens, q, 0, n, paging) == Selected(s.tokens, q);
    AllPatched(s.tokens, q, patch);
    EndsLoop(reached, sys, i, s.(tokens := PatchAll(s.tokens, q, patch)), run, action, walk.(page := n), paging);
  }

  lemma EndsLoop(reached: Sys -> bool, sys: Sys, i: nat, s: Store, run: Running, action: Agreements.Action, walk: Walk,
                 paging: Paging)
    requires Closed(reached, paging) && i < |sys.jobs| && reached(At(sys, i, s, Looping(run, action, walk)))
    requires WalkOver(walk, paging)
    ensures reached(At(sys, i, s, run.(pc := AfterWalk(action, walk))))
  {
    WorkerMovesAt(reached, sys, i, s, Looping(run, action, walk), ClientKid("", ""), paging);
  }

  // ---- a whole message ----

  /** From the first read to the first loop. */
  lemma Begins(reached: Sys -> bool, sys: Sys, i: nat, s: Store, run: Running, action: Agreements.Action,
               paging: Paging)
    requires Closed(reached, paging) && i < |sys.jobs| && reached(At(sys, i, s, run)) && run.pc == JobStart
    requires JobDecide(s.platform, run.job) == Writing(action)
    ensures reached(At(sys, i, s.(platform := WriteRow(s.platform, run.job, action)),
                       run.(pc := AfterWrite(run.job, action))))
  {
    WorkerMovesAt(reached, sys, i, s, run, ClientKid("", ""), paging);
    WorkerMovesAt(reached, sys, i, s, run.(pc := Writing(action)), ClientKid("", ""), paging);
  }

  /** An agreement that moves its entries, up to its loop. */
  lemma BeginsMove(reached: Sys -> bool, sys: Sys, i: nat, s: Store, run: Running, action: Agreements.Action,
                   paging: Paging)
    requires Closed(reached, paging) && i < |sys.jobs| && reached(At(sys, i, s, run)) && run.pc == JobStart
    requires run.job.AgreementJob? && action.Replace? && JobDecide(s.platform, run.job) == Writing(action)
    ensures var row := Lookup(s.platform.catalog, run.job.a.Descriptor());
            reached(At(sys, i, s.(platform := WriteRow(s.platform, run.job, action)),
                       Looping(run, action, StartWalk(MovePatch(run.job.a, row), row))))
  {
    var s' := s.(platform := WriteRow(s.platform, run.job, action));
    Begins(reached, sys, i, s, run, action, paging);
    WorkerMovesAt(reached, sys, i, s', run.(pc := Looking(action)), ClientKid("", ""), paging);
  }

  /** The loop and the second check of a moved agreement, when the descriptor's state is as first read. */
  lemma EndsMove(reached: Sys -> bool, sys: Sys, i: nat, s: Store, run: Running, action: Agreements.Action,
                 read: Option<CatalogRow>, paging: Paging)
    requires Closed(reached, paging) && i < |sys.jobs| && run.job.AgreementJob? && action.Replace?
    requires reached(At(sys, i, s, Looping(run, action, StartWalk(MovePatch(run.job.a, read), read))))
    requires var now := Lookup(s.platform.catalog, run.job.a.Descriptor());
             now.Some? ==> read.Some? && read.value.state == now.value.state
    ensures reached(At(sys, i, s.(tokens := PatchAll(s.tokens, QueryOf(run.job), MovePatch(run.job.a, read))),
                       run.(pc := Finished)))
  {
    var patch := MovePatch(run.job.a, read);
    var s' := s.(tokens := PatchAll(s.tokens, QueryOf(run.job), patch));
    Loops(reached, sys, i, s, run, action, patch, read, paging);
    WorkerMovesAt(reached, sys, i, s', run.(pc := Rechecking(read)), ClientKid("", ""), paging);
  }

  /** An archived agreement, up to the write of its row. */
  lemma RetiresEntries(reached: Sys -> bool, sys: Sys, i: nat, s: Store, run: Running, action: Agreements.Action,
                       paging: Paging)
    requires Closed(reached, paging) && i < |sys.jobs| && reached(At(sys, i, s, run)) && run.pc == JobStart
    requires run.job.AgreementJob? && action.Retire?
    requires action == Agreements.DecideV2(Lookup(s.platform.agreements, run.job.a.Key()), run.job.event, run.job.a,
                                           run.job.version)
    ensures reached(At(sys, i, s.(tokens := PatchAll(s.tokens, QueryOf(run.job), SetAgreementState(action.state))),
                       run.(pc := Retiring(action))))
  {
    WorkerMovesAt(reached, sys, i, s, run, ClientKid("", ""), paging);
    Loops(reached, sys, i, s, run, action, SetAgreementState(action.state), None, paging);
  }

  /** An agreement message that runs alone has the meaning of its handler; one that throws writes nothing. */
  lemma AgreementAlone(reached: Sys -> bool, sys: Sys, i: nat, s: Store, run: Running, paging: Paging)
    requires Closed(reached, paging) && i < |sys.jobs| && reached(At(sys, i, s, run)) && run.pc == JobStart
    requires run.job.AgreementJob?
    ensures var meaning := Agreements.HandleV2(s, run.job.event, run.job.a, run.job.version);
            reached(At(sys, i, if meaning.Ok? then meaning.value else s, run.(pc := Finished)))
  {
    var a, job := run.job.a, run.job;
    var action := Agreements.DecideV2(Lookup(s.platform.agreements, a.Key()), job.event, a, job.version);
    match action
    case Replace(_) =>
      BeginsMove(reached, sys, i, s, run, action, paging);
      EndsMove(reached, sys, i, s.(platform := WriteRow(s.platform, job, action)), run, action,
               Lookup(s.platform.catalog, a.Descriptor()), paging);
    case Restate(state, _) =>
      Begins(reached, sys, i, s, run, action, paging);
      Loops(reached, sys, i, s.(platform := WriteRow(s.platform, job, action)), run, action, SetAgreementState(state),
            None, paging);
    case Retire(state, _) =>
      RetiresEntries(reached, sys, i, s, run, action, paging);
      var s' := s.(tokens := PatchAll(s.tokens, QueryOf(job), SetAgreementState(state)));
      WorkerMovesAt(reached, sys, i, s', run.(pc := Retiring(action)), ClientKid("", ""), paging);
    case _ =>
      WorkerMovesAt(reached, sys, i, s, run, ClientKid("", ""), paging);
  }

  /** One flow of a catalog message. */
  lemma OpAlone(reached: Sys -> bool, sys: Sys, i: nat, s: Store, run: Running, paging: Paging)
    requires Closed(reached, paging) && i < |sys.jobs| && reached(At(sys, i, s, run)) && run.pc == JobStart
    requires run.job.CatalogJob?
    ensures reached(At(sys, i, Catalog.Perform(s, run.job.op), run.(pc := Finished)))
  {
    var op := run.job.op;
    if Catalog.Proceeds(op, Lookup(s.platform.catalog, op.key)) {
      Begins(reached, sys, i, s, run, Agreements.Skip, paging);
      Loops(reached, sys, i, s.(platform := WriteRow(s.platform, run.job, Agreements.Skip)), run, Agreements.Skip,
            Catalog.EntryPatch(op), None, paging);
    } else {
      WorkerMovesAt(reached, sys, i, s, run, ClientKid("", ""), paging);
    }
  }

  /** A catalog message whose flows have all been handled. */
  function Ended(ops: seq<Catalog.Op>): Running
    requires ops != []
  {
    Running(CatalogJob(ops[|ops| - 1]), Finished, [])
  }

  /** The flows that are left, once one is handled. */
  lemma {:induction false} RestAlone(reached: Sys -> bool, sys: Sys, i: nat, s: Store, op: Catalog.Op,
                                     later: seq<Catalog.Op>, paging: Paging)
    requires Closed(reached, paging) && i < |sys.jobs|
    requires reached(At(sys, i, s, Running(CatalogJob(op), Finished, later)))
    ensures reached(At(sys, i, Catalog.PerformAll(s, later), Ended([op] + later)))
    decreases |later|
  {
    if later != [] {
      WorkerMovesAt(reached, sys, i, s, Running(CatalogJob(op), Finished, later), ClientKid("", ""), paging);
      OpAlone(reached, sys, i, s, Begin(later), paging);
      RestAlone(reached, sys, i, Catalog.Perform(s, later[0]), later[0], later[1..], paging);
      assert Ended([later[0]] + later[1..]) == Ended([op] + later);
    }
  }

  /** A catalog message that runs alone has the meaning of its handler. */
  lemma CatalogAlone(reached: Sys -> bool, sys: Sys, i: nat, s: Store, ops: seq<Catalog.Op>, paging: Paging)
    requires Closed(reached, paging) && i < |sys.jobs| && ops != [] && reached(At(sys, i, s, Begin(ops)))
    ensures reached(At(sys, i, Catalog.PerformAll(s, ops), Ended(ops)))
  {
    OpAlone(reached, sys, i, s, Begin(ops), paging);
    RestAlone(reached, sys, i, Catalog.Perform(s, ops[0]), ops[0], ops[1..], paging);
    assert [ops[0]] + ops[1..] == ops;
  }

  // ---- an addition ----

  /** The system once the entry's adder stands elsewhere, over other tables. */
  function AddAt(sys: Sys, pk: TokenPK, s: Store, pub: string, pc: AddPc): Sys {
    Sys(s, sys.adds[pk := Add(pub, pc)], sys.jobs)
  }

  lemma AdderMovesAt(reached: Sys -> bool, sys: Sys, pk: TokenPK, s: Store, pub: string, pc: AddPc, paging: Paging)
    requires Closed(reached, paging) && pk.ClientKidPurpose? && reached(AddAt(sys, pk, s, pub, pc))
    ensures var (s', add') := AddStep(s, pk, Add(pub, pc));
            reached(AddAt(sys, pk, s', pub, add'.pc))
  {
    var (s', add') := AddStep(s, pk, Add(pub, pc));
    AdderMoves(reached, AddAt(sys, pk, s, pub, pc), pk, paging);
    assert sys.adds[pk := Add(pub, pc)][pk := add'] == sys.adds[pk := add'];
  }

  /** The three first reads. */
  lemma ReadsFirst(reached: Sys -> bool, sys: Sys, pk: TokenPK, s: Store, pub: string, paging: Paging)
    requires Closed(reached, paging) && pk.ClientKidPurpose? && reached(AddAt(sys, pk, s, pub, AddStart))
    ensures reached(AddAt(sys, pk, s, pub, ReadAll(Retrieve(s.platform, pk.purposeId))))
  {
    var p := Lookup(s.platform.purposes, pk.purposeId);
    var a := AgreementOf(s.platform, p);
    AdderMovesAt(reached, sys, pk, s, pub, AddStart, paging);
    AdderMovesAt(reached, sys, pk, s, pub, ReadPurpose(p), paging);
    AdderMovesAt(reached, sys, pk, s, pub, ReadAgreement(p, a), paging);
  }

  /** The put and the three second reads. */
  lemma PutsAndReads(reached: Sys -> bool, sys: Sys, pk: TokenPK, s: Store, pub: string, r: Rows, paging: Paging)
    requires Closed(reached, paging) && pk.ClientKidPurpose? && reached(AddAt(sys, pk, s, pub, ReadAll(r)))
    ensures var mem := InMemory(pub, r);
            reached(AddAt(sys, pk, s.(tokens := s.tokens[pk := Stored(mem)]), pub,
                          RereadAll(mem, Retrieve(s.platform, pk.purposeId))))
  {
    var mem := InMemory(pub, r);
    var s' := s.(tokens := s.tokens[pk := Stored(mem)]);
    var p := Lookup(s.platform.purposes, pk.purposeId);
    var a := AgreementOf(s.platform, p);
    AdderMovesAt(reached, sys, pk, s, pub, ReadAll(r), paging);
    AdderMovesAt(reached, sys, pk, s', pub, Written(mem), paging);
    AdderMovesAt(reached, sys, pk, s', pub, RereadPurpose(mem, p), paging);
    AdderMovesAt(reached, sys, pk, s', pub, RereadAgreement(mem, p, a), paging);
  }

  /** The entry after a put from rows `r` and a second retrieval of the rows as they are. */
  function Added(s: Store, pk: TokenPK, pub: string, r: Rows): Store
    requires pk.ClientKidPurpose?
  {
    var mem := InMemory(pub, r);
    s.(tokens := s.tokens[pk := SecondRetrieval(Stored(mem), mem, Retrieve(s.platform, pk.purposeId))])
  }

  /** The put, the second reads and the patch. */
  lemma Finishes(reached: Sys -> bool, sys: Sys, pk: TokenPK, s: Store, pub: string, r: Rows, paging: Paging)
    requires Closed(reached, paging) && pk.ClientKidPurpose? && reached(AddAt(sys, pk, s, pub, ReadAll(r)))
    ensures reached(AddAt(sys, pk, Added(s, pk, pub, r), pub, AddDone(InMemory(pub, r))))
  {
    var mem, r2 := InMemory(pub, r), Retrieve(s.platform, pk.purposeId);
    var s' := s.(tokens := s.tokens[pk := Stored(mem)]);
    PutsAndReads(reached, sys, pk, s, pub, r, paging);
    AdderMovesAt(reached, sys, pk, s', pub, RereadAll(mem, r2), paging);
    assert s'.tokens[pk := SecondRetrieval(Stored(mem), mem, r2)] == Added(s, pk, pub, r).tokens;
  }
}
