/**
 What the second check does not close. Entries of an agreement are moved while one catalog message is handled.
 A field that a moved entry repeats from its descriptor's row always ends as in the final row, unless the row
 changes and keeps its state, or an update of the descriptor left behind lands on the entry; in these two cases
 some interleaving leaves it wrong. Both can be read off the tables and the message before either begins.
 */
module OpenMoves {
  import opened Basics
  import opened TokenKeys
  import opened PlatformModel
  import opened RaceModel
  import opened AgreementRace
  import opened Schedules
  import TokenGenStore

  function Two(s: Store, run: Running, other: Running): Sys {
    Sys(s, map[], [run, other])
  }

  lemma TwoMoves(s: Store, run: Running, other: Running, s': Store, run': Running)
    ensures At(Two(s, run, other), 0, s', run') == Two(s', run', other)
    ensures At(Two(s, run, other), 1, s', run') == Two(s', run, run')
  {
  }

  // ---- two schedules ----

  lemma {:induction false} MembersStay(s: Store, ops: seq<Catalog.Op>, pk: TokenPK)
    requires pk in s.tokens
    ensures pk in Catalog.PerformAll(s, ops).tokens
    ensures Catalog.PerformAll(s, ops).tokens[pk].consumerEservice == s.tokens[pk].consumerEservice
    decreases |ops|
  {
    if ops != [] { MembersStay(Catalog.Perform(s, ops[0]), ops[1..], pk); }
  }

  /** The agreement message reads the descriptor row, the catalog message is handled, the entries are moved. */
  lemma MessageAfterLook(s: Store, pk: TokenPK, run: Running, ops: seq<Catalog.Op>, f: Field, paging: Paging)
    returns (end: Sys)
    requires ops != [] && RaceStart(Two(s, run, Begin(ops)), ops, pk) && Unnoticed(RaceOf(s, run.job.a, ops, pk, f))
    ensures Possible(Two(s, run, Begin(ops)), end, paging) && AllOver(end) && pk in end.store.tokens
    ensures !Shows(end.store.tokens[pk], RaceOf(s, run.job.a, ops, pk, f).n.value, f)
  {
    var a, other, b := run.job.a, Begin(ops), Lookup(s.platform.catalog, run.job.a.Descriptor());
    var action := Agreements.DecideV2(Lookup(s.platform.agreements, a.Key()), run.job.event, a, run.job.version);
    var start := Two(s, run, other);
    var reached := PossibleFrom(start, paging);
    PossibleIsClosed(start, paging);
    TwoMoves(s, run, other, s, run);
    BeginsMove(reached, start, 0, s, run, action, paging);
    var s1, run1 := s.(platform := WriteRow(s.platform, run.job, action)),
      Looping(run, action, StartWalk(MovePatch(a, b), b));
    TwoMoves(s, run, other, s1, run1);
    TwoMoves(s1, run1, other, s1, other);
    CatalogAlone(reached, Two(s1, run1, other), 1, s1, ops, paging);
    var s2 := Catalog.PerformAll(s1, ops);
    TwoMoves(s1, run1, other, s2, Ended(ops));
    TwoMoves(s2, run1, Ended(ops), s2, run1);
    Catalog.RowAfterAll(s1, ops, a.Descriptor());
    assert Catalog.RowAfter(s1.platform, ops, a.Descriptor()) == Catalog.RowAfter(s.platform, ops, a.Descriptor());
    EndsMove(reached, Two(s2, run1, Ended(ops)), 0, s2, run, action, b, paging);
    var s3 := s2.(tokens := PatchAll(s2.tokens, QueryOf(run.job), MovePatch(a, b)));
    TwoMoves(s2, run1, Ended(ops), s3, run.(pc := Finished));
    MembersStay(s1, ops, pk);
    end := Two(s3, run.(pc := Finished), Ended(ops));
  }

  /** The catalog message reads the entry's page, and then the entry is moved. */
  lemma MoveAfterPage(s: Store, pk: TokenPK, run: Running, ops: seq<Catalog.Op>, f: Field, paging: Paging)
    returns (s': Store, walk: Walk)
    requires ops != [] && RaceStart(Two(s, run, Begin(ops)), ops, pk) && Lands(RaceOf(s, run.job.a, ops, pk, f))
    ensures var start := Two(s, run, Begin(ops));
            Possible(start, Two(s', run.(pc := Finished), Looping(Begin(ops), Agreements.Skip, walk)), paging)
    ensures walk.patch == Catalog.EntryPatch(ops[0]) && pk in walk.pending && walk.page == paging.Index(pk) + 1
    ensures var row := Lookup(s.platform.catalog, run.job.a.Descriptor());
            pk in s'.tokens && s'.tokens[pk] == Apply(MovePatch(run.job.a, row), s.tokens[pk])
  {
    var other, op, patch := Begin(ops), ops[0], Catalog.EntryPatch(ops[0]);
    var start := Two(s, run, other);
    var reached := PossibleFrom(start, paging);
    PossibleIsClosed(start, paging);
    TwoMoves(s, run, other, s, other);
    Begins(reached, start, 1, s, other, Agreements.Skip, paging);
    var s1 := s.(platform := WriteRow(s.platform, other.job, Agreements.Skip));
    var n, q := paging.Index(pk), ByDescriptor(op.key);
    WalksTo(reached, start, 1, s1, other, Agreements.Skip, StartWalk(patch, None), n, paging);
    var s2 := s1.(tokens := TokenGenStore.Patched(s1.tokens, patch, OnPages(s1.tokens, q, 0, n, paging)));
    assert s2.tokens[pk] == s.tokens[pk];
    ReadsPage(reached, start, 1, s2, other, Agreements.Skip, StartWalk(patch, None).(page := n), paging);
    walk := StartWalk(patch, None).(page := n + 1, pending := OnPages(s2.tokens, q, n, n + 1, paging));
    var other1 := Looping(other, Agreements.Skip, walk);
    TwoMoves(s, run, other, s2, other1);
    TwoMoves(s2, run, other1, s2, run);
    AgreementAlone(reached, Two(s2, run, other1), 0, s2, run, paging);
    s' := Agreements.HandleV2(s2, run.job.event, run.job.a, run.job.version).value;
    TwoMoves(s2, run, other1, s', run.(pc := Finished));
    assert Lookup(s2.platform.catalog, run.job.a.Descriptor()) == Lookup(s.platform.catalog, run.job.a.Descriptor());
  }

  /** The pending update lands on the moved entry, and the rest of the message passes by. */
  lemma PageAfterMove(s: Store, pk: TokenPK, run: Running, ops: seq<Catalog.Op>, f: Field, paging: Paging)
    returns (end: Sys)
    requires ops != [] && RaceStart(Two(s, run, Begin(ops)), ops, pk) && Lands(RaceOf(s, run.job.a, ops, pk, f))
    ensures Possible(Two(s, run, Begin(ops)), end, paging) && AllOver(end) && pk in end.store.tokens
    ensures !Shows(end.store.tokens[pk], RaceOf(s, run.job.a, ops, pk, f).n.value, f)
  {
    var start, over := Two(s, run, Begin(ops)), run.(pc := Finished);
    var reached := PossibleFrom(start, paging);
    PossibleIsClosed(start, paging);
    var s1, walk := MoveAfterPage(s, pk, run, ops, f, paging);
    var other := Begin(ops);
    var other1 := Looping(other, Agreements.Skip, walk);
    var sys := Two(s1, over, other1);
    TwoMoves(s1, over, other1, s1, other1);
    Drains(reached, sys, 1, s1, other, Agreements.Skip, walk, paging);
    var s2 := s1.(tokens := TokenGenStore.Patched(s1.tokens, walk.patch, walk.pending));
    var walk2, q := walk.(pending := {}), ByDescriptor(ops[0].key);
    WalksTo(reached, sys, 1, s2, other, Agreements.Skip, walk2, paging.last + 1, paging);
    var s3 := s2.(tokens :=
      TokenGenStore.Patched(s2.tokens, walk.patch, OnPages(s2.tokens, q, walk.page, paging.last + 1, paging)));
    assert s3.tokens[pk] == Apply(walk.patch, s1.tokens[pk]);
    EndsLoop(reached, sys, 1, s3, other, Agreements.Skip, walk2.(page := paging.last + 1), paging);
    TwoMoves(s1, over, other1, s3, other.(pc := Finished));
    StartRowsOk(s, run.job.a, ops, pk, f);
    end := RestPassesBy(reached, s3, pk, over, ops, run.job.a, paging);
  }

  lemma RestPassesBy(reached: Sys -> bool, s: Store, pk: TokenPK, over: Running, ops: seq<Catalog.Op>,
                     a: Agreements.Agreement, paging: Paging)
    returns (end: Sys)
    requires Closed(reached, paging) && ops != [] && RunOver(over)
    requires reached(Two(s, over, Begin(ops).(pc := Finished)))
    requires pk in s.tokens && s.tokens[pk].descriptor == Some(a.Descriptor())
    requires forall op <- ops[1..] :: op.key != a.Descriptor()
    ensures reached(end) && AllOver(end) && pk in end.store.tokens && end.store.tokens[pk] == s.tokens[pk]
  {
    var other := Begin(ops).(pc := Finished);
    TwoMoves(s, over, other, s, other);
    RestAlone(reached, Two(s, over, other), 1, s, ops[0], ops[1..], paging);
    var s' := Catalog.PerformAll(s, ops[1..]);
    assert [ops[0]] + ops[1..] == ops;
    TwoMoves(s, over, other, s', Ended(ops));
    Catalog.OtherFlows(s, ops[1..], pk);
    end := Two(s', over, Ended(ops));
  }

  // ---- exactly when a field follows ----

  predicate FieldFollows(end: Store, pk: TokenPK, a: Agreements.Agreement, f: Field) {
    var row := Lookup(end.platform.catalog, a.Descriptor());
    && pk in end.tokens && end.tokens[pk].descriptor == Some(a.Descriptor())
    && (row.Some? ==> Shows(end.tokens[pk], row.value, f))
  }

  ghost function FieldOk(pk: TokenPK, a: Agreements.Agreement, f: Field): Store -> bool {
    end => FieldFollows(end, pk, a, f)
  }

  lemma MovedFieldFollowsIff(s: Store, pk: TokenPK, run: Running, ops: seq<Catalog.Op>, f: Field, paging: Paging)
    requires ops != [] && RaceStart(Two(s, run, Begin(ops)), ops, pk)
    ensures var x := RaceOf(s, run.job.a, ops, pk, f);
            Always(Two(s, run, Begin(ops)), paging, FieldOk(pk, run.job.a, f)) <==> !Unnoticed(x) && !Lands(x)
  {
    var start, x, good := Two(s, run, Begin(ops)), RaceOf(s, run.job.a, ops, pk, f), FieldOk(pk, run.job.a, f);
    if Unnoticed(x) || Lands(x) {
      var end;
      if Unnoticed(x) {
        end := MessageAfterLook(s, pk, run, ops, f, paging);
      } else {
        end := PageAfterMove(s, pk, run, ops, f, paging);
      }
      var moves :| Interleave(start, moves, paging) == end;
      SecondCheckClosesTheRace(start, ops, moves, paging, pk, f);
      Refutes(start, end, paging, good);
    } else {
      forall moves | AllOver(Interleave(start, moves, paging))
        ensures good(Interleave(start, moves, paging).store)
      {
        SecondCheckClosesTheRace(start, ops, moves, paging, pk, f);
      }
    }
  }
}
