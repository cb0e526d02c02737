/**
 What the second retrieval does not close. One entry is added while one message is handled, and some field
 may end otherwise than in the final rows. Each lemma says exactly when it never does: the condition can be
 read off the rows and the message before either begins.
 */
module OpenRaces {
  import opened Basics
  import opened TokenKeys
  import opened PlatformModel
  import opened RaceModel
  import opened CacheInvariant
  import opened AuthorizationRace
  import opened Schedules

  /** One entry being added while one message is handled. */
  function One(s: Store, pk: TokenPK, pub: string, pc: AddPc, run: Running): Sys {
    Sys(s, map[pk := Add(pub, pc)], [run])
  }

  lemma OneMoves(s: Store, pk: TokenPK, pub: string, pc: AddPc, run: Running, s': Store, pc': AddPc, run': Running)
    ensures At(One(s, pk, pub, pc, run), 0, s', run') == One(s', pk, pub, pc, run')
    ensures AddAt(One(s, pk, pub, pc, run), pk, s', pub, pc') == One(s', pk, pub, pc', run)
  {
    assert map[pk := Add(pub, pc)][pk := Add(pub, pc')] == map[pk := Add(pub, pc')];
  }

  // ---- three schedules ----

  /** What a message means when nothing runs beside it. */
  function Meaning(s: Store, run: Running): Store {
    match run.job
    case AgreementJob(event, a, version) =>
      var meaning := Agreements.HandleV2(s, event, a, version);
      if meaning.Ok? then meaning.value else s
    case CatalogJob(op) => Catalog.PerformAll(s, [op] + run.later)
  }

  /** A whole message, about whatever. */
  lemma MessageAlone(reached: Sys -> bool, sys: Sys, i: nat, s: Store, run: Running, paging: Paging)
    returns (s': Store, run': Running)
    requires Closed(reached, paging) && i < |sys.jobs| && reached(At(sys, i, s, run)) && Unread(run)
    ensures reached(At(sys, i, s', run')) && RunOver(run') && s' == Meaning(s, run)
  {
    match run.job
    case AgreementJob(event, a, version) =>
      AgreementAlone(reached, sys, i, s, run, paging);
      var meaning := Agreements.HandleV2(s, event, a, version);
      s', run' := if meaning.Ok? then meaning.value else s, run.(pc := Finished);
    case CatalogJob(op) =>
      var ops := [op] + run.later;
      assert Begin(ops) == run;
      CatalogAlone(reached, sys, i, s, ops, paging);
      s', run' := Catalog.PerformAll(s, ops), Ended(ops);
  }

  /** The adder reads, the message is handled, the adder puts the entry and retrieves the rows again. */
  lemma MessageAfterReads(s: Store, pk: TokenPK, pub: string, run: Running, paging: Paging) returns (end: Sys)
    requires pk.ClientKidPurpose? && Unread(run)
    ensures Possible(One(s, pk, pub, AddStart, run), end, paging) && AllOver(end) && pk in end.store.tokens
    ensures var mem := InMemory(pub, Retrieve(s.platform, pk.purposeId));
            end.store.tokens[pk] == SecondRetrieval(Stored(mem), mem, Retrieve(end.store.platform, pk.purposeId))
  {
    var r := Retrieve(s.platform, pk.purposeId);
    var start := One(s, pk, pub, AddStart, run);
    var reached := PossibleFrom(start, paging);
    PossibleIsClosed(start, paging);
    OneMoves(s, pk, pub, AddStart, run, s, AddStart, run);
    OneMoves(s, pk, pub, AddStart, run, s, ReadAll(r), run);
    ReadsFirst(reached, start, pk, s, pub, paging);
    var sys := One(s, pk, pub, ReadAll(r), run);
    OneMoves(s, pk, pub, ReadAll(r), run, s, ReadAll(r), run);
    var s', run' := MessageAlone(reached, sys, 0, s, run, paging);
    OneMoves(s, pk, pub, ReadAll(r), run, s', ReadAll(r), run');
    var sys' := One(s', pk, pub, ReadAll(r), run');
    OneMoves(s', pk, pub, ReadAll(r), run', s', ReadAll(r), run');
    Finishes(reached, sys', pk, s', pub, r, paging);
    OneMoves(s', pk, pub, ReadAll(r), run', Added(s', pk, pub, r), AddDone(InMemory(pub, r)), run');
    end := One(Added(s', pk, pub, r), pk, pub, AddDone(InMemory(pub, r)), run');
  }

  /** The adder reads, an archived agreement's entries are updated, the adder finishes, and the row is written. */
  lemma AddWhileRetiring(s: Store, pk: TokenPK, pub: string, run: Running, paging: Paging) returns (end: Sys)
    requires pk.ClientKidPurpose? && Unread(run) && run.job.AgreementJob?
    requires Agreements.DecideV2(Lookup(s.platform.agreements, run.job.a.Key()), run.job.event, run.job.a,
                                 run.job.version).Retire?
    ensures Possible(One(s, pk, pub, AddStart, run), end, paging) && AllOver(end) && pk in end.store.tokens
    ensures var r := Retrieve(s.platform, pk.purposeId);
            var mem := InMemory(pub, r);
            end.store.tokens[pk] == SecondRetrieval(Stored(mem), mem, r)
  {
    var r := Retrieve(s.platform, pk.purposeId);
    var action := Agreements.DecideV2(Lookup(s.platform.agreements, run.job.a.Key()), run.job.event, run.job.a,
                                      run.job.version);
    var start := One(s, pk, pub, AddStart, run);
    var reached := PossibleFrom(start, paging);
    PossibleIsClosed(start, paging);
    OneMoves(s, pk, pub, AddStart, run, s, AddStart, run);
    OneMoves(s, pk, pub, AddStart, run, s, ReadAll(r), run);
    ReadsFirst(reached, start, pk, s, pub, paging);
    var sys := One(s, pk, pub, ReadAll(r), run);
    OneMoves(s, pk, pub, ReadAll(r), run, s, ReadAll(r), run);
    RetiresEntries(reached, sys, 0, s, run, action, paging);
    var s' := s.(tokens := PatchAll(s.tokens, QueryOf(run.job), SetAgreementState(action.state)));
    var run' := run.(pc := Retiring(action));
    OneMoves(s, pk, pub, ReadAll(r), run, s', ReadAll(r), run');
    var sys' := One(s', pk, pub, ReadAll(r), run');
    OneMoves(s', pk, pub, ReadAll(r), run', s', ReadAll(r), run');
    Finishes(reached, sys', pk, s', pub, r, paging);
    OneMoves(s', pk, pub, ReadAll(r), run', Added(s', pk, pub, r), AddDone(InMemory(pub, r)), run');
    var sys'' := One(Added(s', pk, pub, r), pk, pub, AddDone(InMemory(pub, r)), run');
    OneMoves(sys''.store, pk, pub, AddDone(InMemory(pub, r)), run', sys''.store, AddDone(InMemory(pub, r)), run');
    WorkerMovesAt(reached, sys'', 0, sys''.store, run', ClientKid("", ""), paging);
    var s'' := sys''.store.(platform := WriteRow(s.platform, run.job, action));
    OneMoves(sys''.store, pk, pub, AddDone(InMemory(pub, r)), run', s'', AddDone(InMemory(pub, r)),
      run.(pc := Finished));
    end := One(s'', pk, pub, AddDone(InMemory(pub, r)), run.(pc := Finished));
  }

  /** The entry is added, and then the message is handled. */
  lemma MessageAfterAdd(s: Store, pk: TokenPK, pub: string, run: Running, paging: Paging) returns (end: Sys)
    requires pk.ClientKidPurpose? && Unread(run)
    ensures Possible(One(s, pk, pub, AddStart, run), end, paging) && AllOver(end)
    ensures end.store == Meaning(Added(s, pk, pub, Retrieve(s.platform, pk.purposeId)), run)
  {
    var r := Retrieve(s.platform, pk.purposeId);
    var start := One(s, pk, pub, AddStart, run);
    var reached := PossibleFrom(start, paging);
    PossibleIsClosed(start, paging);
    OneMoves(s, pk, pub, AddStart, run, s, AddStart, run);
    OneMoves(s, pk, pub, AddStart, run, s, ReadAll(r), run);
    ReadsFirst(reached, start, pk, s, pub, paging);
    var sys := One(s, pk, pub, ReadAll(r), run);
    OneMoves(s, pk, pub, ReadAll(r), run, s, ReadAll(r), run);
    Finishes(reached, sys, pk, s, pub, r, paging);
    var s', done := Added(s, pk, pub, r), AddDone(InMemory(pub, r));
    OneMoves(s, pk, pub, ReadAll(r), run, s', done, run);
    var sys' := One(s', pk, pub, done, run);
    OneMoves(s', pk, pub, done, run, s', done, run);
    var s'', run'' := MessageAlone(reached, sys', 0, s', run, paging);
    OneMoves(s', pk, pub, done, run, s'', done, run'');
    end := One(s'', pk, pub, done, run'');
  }

  // ---- what every schedule leaves ----

  lemma EveryEnd(s: Store, pk: TokenPK, pub: string, run: Running, end: Sys, paging: Paging, owners: Owners)
    requires RaceStart(One(s, pk, pub, AddStart, run), 0, pk, owners)
    requires Possible(One(s, pk, pub, AddStart, run), end, paging) && AllOver(end)
    ensures var c := ChangeBy(s.platform, run, pk.purposeId);
            && Retrieve(end.store.platform, pk.purposeId) == c.r1
            && pk in end.store.tokens && Caught(end.store.tokens[pk], c) && Keeps(end.store.tokens[pk], c)
  {
    var start := One(s, pk, pub, AddStart, run);
    var moves :| Interleave(start, moves, paging) == end;
    SecondRetrievalClosesTheRace(start, moves, 0, paging, owners, pk);
  }

  // ---- the agreement state ----

  predicate AgreementStateFollows(end: Store, pk: TokenPK)
    requires pk.ClientKidPurpose?
  {
    var r := Retrieve(end.platform, pk.purposeId);
    pk in end.tokens && (r.agreement.Some? ==> end.tokens[pk].agreementState == Some(r.agreement.value.state))
  }

  ghost function StateOk(pk: TokenPK): Store -> bool
    requires pk.ClientKidPurpose?
  {
    end => AgreementStateFollows(end, pk)
  }

  /** The message archives the agreement of the entry, whose row has another state so far. */
  predicate ArchivesAgreement(pf: Platform, run: Running, purposeId: Id) {
    && run.job.AgreementJob? && purposeId in pf.purposes && pf.purposes[purposeId].Owner() == run.job.a.Key()
    && var row := Lookup(pf.agreements, run.job.a.Key());
       && Agreements.DecideV2(row, run.job.event, run.job.a, run.job.version).Retire?
       && row.value.state != Agreements.ItemStateOf(run.job.a.state)
  }

  lemma ArchivesIs(pf: Platform, run: Running, pk: TokenPK)
    requires pk.ClientKidPurpose? && pk.purposeId in pf.purposes
    ensures var c := ChangeBy(pf, run, pk.purposeId);
            ArchivesAgreement(pf, run, pk.purposeId) <==> c.retires && AgreementStateOf(c.r0) != AgreementStateOf(c.r1)
  {
  }

  /** Archiving an agreement updates its entries before its row, so an entry added meanwhile may keep the old
      state; no other message leaves it behind. */
  lemma AgreementStateFollowsIff(s: Store, pk: TokenPK, pub: string, run: Running, paging: Paging, owners: Owners)
    requires RaceStart(One(s, pk, pub, AddStart, run), 0, pk, owners)
    ensures Always(One(s, pk, pub, AddStart, run), paging, StateOk(pk)) <==>
            !ArchivesAgreement(s.platform, run, pk.purposeId)
  {
    var start := One(s, pk, pub, AddStart, run);
    assert Unread(start.jobs[0]);
    ArchivesIs(s.platform, run, pk);
    if ArchivesAgreement(s.platform, run, pk.purposeId) {
      var end := AddWhileRetiring(s, pk, pub, run, paging);
      EveryEnd(s, pk, pub, run, end, paging, owners);
      Refutes(start, end, paging, StateOk(pk));
    } else {
      forall moves | AllOver(Interleave(start, moves, paging))
        ensures StateOk(pk)(Interleave(start, moves, paging).store)
      {
        EveryEnd(s, pk, pub, run, Interleave(start, moves, paging), paging, owners);
      }
    }
  }

  // ---- the agreement id ----

  predicate AgreementIdFollows(end: Store, pk: TokenPK)
    requires pk.ClientKidPurpose?
  {
    var r := Retrieve(end.platform, pk.purposeId);
    pk in end.tokens && (r.agreement.Some? ==> end.tokens[pk].agreementId == Some(r.agreement.value.agreementId))
  }

  ghost function IdOk(pk: TokenPK): Store -> bool
    requires pk.ClientKidPurpose?
  {
    end => AgreementIdFollows(end, pk)
  }

  /** The message gives the entry's consumer and e-service their first agreement, or another one. */
  predicate TakesOver(pf: Platform, run: Running, purposeId: Id) {
    && run.job.AgreementJob? && purposeId in pf.purposes && pf.purposes[purposeId].Owner() == run.job.a.Key()
    && var row := Lookup(pf.agreements, run.job.a.Key());
       && Agreements.DecideV2(row, run.job.event, run.job.a, run.job.version).Replace?
       && (row.Some? ==> row.value.agreementId != run.job.a.id)
  }

  lemma TakesOverIs(pf: Platform, run: Running, pk: TokenPK)
    requires pk.ClientKidPurpose? && pk.purposeId in pf.purposes
    ensures var c := ChangeBy(pf, run, pk.purposeId);
            TakesOver(pf, run, pk.purposeId) <==> AgreementIdOf(c.r0) != AgreementIdOf(c.r1)
  {
  }

  /** The second retrieval does not refresh the agreement id, so it may stay behind exactly when the row passes
      to another agreement or gets its first one. */
  lemma AgreementIdFollowsIff(s: Store, pk: TokenPK, pub: string, run: Running, paging: Paging, owners: Owners)
    requires RaceStart(One(s, pk, pub, AddStart, run), 0, pk, owners)
    ensures Always(One(s, pk, pub, AddStart, run), paging, IdOk(pk)) <==> !TakesOver(s.platform, run, pk.purposeId)
  {
    var start := One(s, pk, pub, AddStart, run);
    assert Unread(start.jobs[0]);
    TakesOverIs(s.platform, run, pk);
    if TakesOver(s.platform, run, pk.purposeId) {
      var end := MessageAfterReads(s, pk, pub, run, paging);
      EveryEnd(s, pk, pub, run, end, paging, owners);
      Refutes(start, end, paging, IdOk(pk));
    } else {
      forall moves | AllOver(Interleave(start, moves, paging))
        ensures IdOk(pk)(Interleave(start, moves, paging).store)
      {
        EveryEnd(s, pk, pub, run, Interleave(start, moves, paging), paging, owners);
      }
    }
  }

  // ---- the audience ----

  predicate AudienceFollows(end: Store, pk: TokenPK)
    requires pk.ClientKidPurpose?
  {
    var r := Retrieve(end.platform, pk.purposeId);
    pk in end.tokens && (r.catalog.Some? ==> end.tokens[pk].audience == Some(r.catalog.value.audience))
  }

  ghost function AudienceOk(pk: TokenPK): Store -> bool
    requires pk.ClientKidPurpose?
  {
    end => AudienceFollows(end, pk)
  }

  /** The second retrieval refreshes the audience only if an old value disappeared, so it may stay behind exactly
      when the descriptor row that the message leads to keeps all values of the one before and is not the same. */
  lemma AudienceFollowsIff(s: Store, pk: TokenPK, pub: string, run: Running, paging: Paging, owners: Owners)
    requires RaceStart(One(s, pk, pub, AddStart, run), 0, pk, owners)
    ensures var c := ChangeBy(s.platform, run, pk.purposeId);
            Always(One(s, pk, pub, AddStart, run), paging, AudienceOk(pk)) <==> !AudienceGrows(c.r0, c.r1)
  {
    var start, c := One(s, pk, pub, AddStart, run), ChangeBy(s.platform, run, pk.purposeId);
    assert Unread(start.jobs[0]);
    ChangeIsOk(s.platform, run, pk);
    if AudienceGrows(c.r0, c.r1) {
      var end := MessageAfterReads(s, pk, pub, run, paging);
      EveryEnd(s, pk, pub, run, end, paging, owners);
      Refutes(start, end, paging, AudienceOk(pk));
    } else {
      forall moves | AllOver(Interleave(start, moves, paging))
        ensures AudienceOk(pk)(Interleave(start, moves, paging).store)
      {
        EveryEnd(s, pk, pub, run, Interleave(start, moves, paging), paging, owners);
      }
    }
  }

  // ---- asynchronous exchange ----

  predicate AsyncFollows(end: Store, pk: TokenPK)
    requires pk.ClientKidPurpose?
  {
    var r := Retrieve(end.platform, pk.purposeId);
    pk in end.tokens && (r.catalog.Some? ==> end.tokens[pk].asyncExchange == r.catalog.value.asyncExchange)
  }

  ghost function AsyncOk(pk: TokenPK): Store -> bool
    requires pk.ClientKidPurpose?
  {
    end => AsyncFollows(end, pk)
  }

  /** No flow of a catalog message writes the flag into entries. */
  lemma {:induction false} FlowsKeepAsync(s: Store, ops: seq<Catalog.Op>, pk: TokenPK)
    requires pk in s.tokens
    ensures var s' := Catalog.PerformAll(s, ops);
            pk in s'.tokens && s'.tokens[pk].asyncExchange == s.tokens[pk].asyncExchange
    decreases |ops|
  {
    if ops != [] { FlowsKeepAsync(Catalog.Perform(s, ops[0]), ops[1..], pk); }
  }

  lemma MessageKeepsAsync(s: Store, run: Running, pk: TokenPK)
    requires pk in s.tokens
    ensures var s' := Meaning(s, run); pk in s'.tokens && s'.tokens[pk].asyncExchange == s.tokens[pk].asyncExchange
  {
    if run.job.CatalogJob? { FlowsKeepAsync(s, [run.job.op] + run.later, pk); }
  }

  /** Only the addition itself writes the flag, so it may stay behind exactly when the final descriptor row, whether
      the message changed it or led the agreement to it, has another one than the row before. */
  lemma AsyncFollowsIff(s: Store, pk: TokenPK, pub: string, run: Running, paging: Paging, owners: Owners)
    requires RaceStart(One(s, pk, pub, AddStart, run), 0, pk, owners)
    ensures var c := ChangeBy(s.platform, run, pk.purposeId);
            Always(One(s, pk, pub, AddStart, run), paging, AsyncOk(pk)) <==>
            c.r1.catalog.None? || AsyncOf(c.r1) == AsyncOf(c.r0)
  {
    var start, c := One(s, pk, pub, AddStart, run), ChangeBy(s.platform, run, pk.purposeId);
    assert Unread(start.jobs[0]);
    ChangeIsOk(s.platform, run, pk);
    if c.r1.catalog.Some? && AsyncOf(c.r1) != AsyncOf(c.r0) {
      var end := MessageAfterAdd(s, pk, pub, run, paging);
      EveryEnd(s, pk, pub, run, end, paging, owners);
      MessageKeepsAsync(Added(s, pk, pub, c.r0), run, pk);
      Refutes(start, end, paging, AsyncOk(pk));
    } else {
      forall moves | AllOver(Interleave(start, moves, paging))
        ensures AsyncOk(pk)(Interleave(start, moves, paging).store)
      {
        EveryEnd(s, pk, pub, run, Interleave(start, moves, paging), paging, owners);
      }
    }
  }

  // ---- an absent descriptor row ----

  /** No row, and the entry does not look active. */
  predicate NothingActive(end: Store, pk: TokenPK)
    requires pk.ClientKidPurpose?
  {
    pk in end.tokens
    && (Retrieve(end.platform, pk.purposeId).catalog.None? ==> end.tokens[pk].descriptorState != Some(Active))
  }

  ghost function InactiveOk(pk: TokenPK): Store -> bool
    requires pk.ClientKidPurpose?
  {
    end => NothingActive(end, pk)
  }

  /** Archiving with an active state: the entry is added first, and then made to look active. */
  lemma ArchivedActive(s: Store, pk: TokenPK, pub: string, run: Running, end: Store)
    requires pk.ClientKidPurpose? && pk.purposeId in s.platform.purposes && Unread(run) && run.job.CatalogJob?
    requires ChangeBy(s.platform, run, pk.purposeId).mark == Some(Active)
    requires end == Catalog.PerformAll(Added(s, pk, pub, Retrieve(s.platform, pk.purposeId)), [run.job.op] + run.later)
    ensures pk in end.tokens && end.tokens[pk].descriptorState == Some(Active)
  {
    var r, ops := Retrieve(s.platform, pk.purposeId), [run.job.op] + run.later;
    Catalog.OpOnIs(ops, Pointer(r).value);
    Catalog.FlowOnEntry(Added(s, pk, pub, r), ops, Catalog.OpOn(ops, Pointer(r).value).value, pk);
  }

  /** A row that a message leaves absent cannot correct an entry. The entry never looks active on its behalf exactly
      when the row before was not active and the message, if it archives the descriptor, carries an inactive state. */
  lemma AbsentNeverActiveIff(s: Store, pk: TokenPK, pub: string, run: Running, paging: Paging, owners: Owners)
    requires RaceStart(One(s, pk, pub, AddStart, run), 0, pk, owners)
    ensures var c := ChangeBy(s.platform, run, pk.purposeId);
            Always(One(s, pk, pub, AddStart, run), paging, InactiveOk(pk)) <==>
            c.r1.catalog.Some? || (DescriptorStateOf(c.r0) != Some(Active) && c.mark != Some(Active))
  {
    var start, c := One(s, pk, pub, AddStart, run), ChangeBy(s.platform, run, pk.purposeId);
    assert Unread(start.jobs[0]);
    ChangeIsOk(s.platform, run, pk);
    if c.r1.catalog.None? && DescriptorStateOf(c.r0) == Some(Active) {
      var end := MessageAfterReads(s, pk, pub, run, paging);
      EveryEnd(s, pk, pub, run, end, paging, owners);
      Refutes(start, end, paging, InactiveOk(pk));
    } else if c.mark == Some(Active) {
      var end := MessageAfterAdd(s, pk, pub, run, paging);
      EveryEnd(s, pk, pub, run, end, paging, owners);
      ArchivedActive(s, pk, pub, run, end.store);
      Refutes(start, end, paging, InactiveOk(pk));
    } else {
      forall moves | AllOver(Interleave(start, moves, paging))
        ensures InactiveOk(pk)(Interleave(start, moves, paging).store)
      {
        EveryEnd(s, pk, pub, run, Interleave(start, moves, paging), paging, owners);
      }
    }
  }
}
