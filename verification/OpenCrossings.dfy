/**
 What neither the second retrieval nor the second check closes: three parties at once. An entry is added while
 messages are handled, and its descriptor state may end otherwise than in the final row.
 */
module OpenCrossings {
  import opened Basics
  import opened TokenKeys
  import opened PlatformModel
  import opened RaceModel
  import opened CacheInvariant
  import opened AuthorizationRace
  import opened Schedules
  import Crossing

  predicate DescriptorStateFollows(end: Store, pk: TokenPK)
    requires pk.ClientKidPurpose?
  {
    var r := Retrieve(end.platform, pk.purposeId);
    pk in end.tokens && (r.catalog.Some? ==> end.tokens[pk].descriptorState == Some(r.catalog.value.state))
  }

  ghost function DescriptorOk(pk: TokenPK): Store -> bool
    requires pk.ClientKidPurpose?
  {
    end => DescriptorStateFollows(end, pk)
  }

  /** Any number of messages at once: the entry follows if all but one of them are about rows that it neither
      has led to nor will lead to. */
  lemma ApartMessagesNeverCross(sys: Sys, i: nat, pk: TokenPK, paging: Paging, owners: Owners)
    requires RaceStart(sys, i, pk, owners)
    ensures Always(sys, paging, DescriptorOk(pk))
  {
    forall moves | AllOver(Interleave(sys, moves, paging))
      ensures DescriptorOk(pk)(Interleave(sys, moves, paging).store)
    {
      SecondRetrievalClosesTheRace(sys, moves, i, paging, owners, pk);
    }
  }

  /** One entry added while an agreement message and a catalog message are handled. */
  function Three(s: Store, pk: TokenPK, pub: string, pc: AddPc, run: Running, other: Running): Sys {
    Sys(s, map[pk := Add(pub, pc)], [run, other])
  }

  lemma ThreeMoves(s: Store, pk: TokenPK, pub: string, pc: AddPc, run: Running, other: Running, s': Store, pc': AddPc,
                   run': Running)
    ensures At(Three(s, pk, pub, pc, run, other), 0, s', run') == Three(s', pk, pub, pc, run', other)
    ensures At(Three(s, pk, pub, pc, run, other), 1, s', run') == Three(s', pk, pub, pc, run, run')
    ensures AddAt(Three(s, pk, pub, pc, run, other), pk, s', pub, pc') == Three(s', pk, pub, pc', run, other)
  {
    assert map[pk := Add(pub, pc)][pk := Add(pub, pc')] == map[pk := Add(pub, pc')];
  }

  /** The agreement moves from one descriptor, or none, to another one, and a message changes the state of the new one,
      or of the old one to what the new one's is not. */
  predicate Crosses(pf: Platform, run: Running, op: Catalog.Op, purposeId: Id) {
    && run.job.AgreementJob? && purposeId in pf.purposes && pf.purposes[purposeId].Owner() == run.job.a.Key()
    && Agreements.DecideV2(Lookup(pf.agreements, run.job.a.Key()), run.job.event, run.job.a, run.job.version).Replace?
    && op.Restate? && Catalog.Proceeds(op, Lookup(pf.catalog, op.key)) && pf.catalog[op.key].state != op.state
    && var d := run.job.a.Descriptor();
       var left := Pointer(Retrieve(pf, purposeId));
       && left != Some(d)
       && (op.key == d || (left == Some(op.key) && d in pf.catalog && pf.catalog[d].state != op.state))
  }

  /** The tables once the agreement has moved, the entry is put, and the descriptor is restated. */
  function Crossed(s: Store, pk: TokenPK, pub: string, job: Job, op: Catalog.Op): Store
    requires job.AgreementJob? && pk.ClientKidPurpose?
  {
    var meaning := Agreements.HandleV2(s, job.event, job.a, job.version);
    var s1 := if meaning.Ok? then meaning.value else s;
    var mem := InMemory(pub, Retrieve(s.platform, pk.purposeId));
    Catalog.Perform(s1.(tokens := s1.tokens[pk := Stored(mem)]), op)
  }

  lemma CrossingSchedule(s: Store, pk: TokenPK, pub: string, run: Running, op: Catalog.Op, paging: Paging)
    returns (end: Sys)
    requires pk.ClientKidPurpose? && Unread(run) && Crosses(s.platform, run, op, pk.purposeId)
    ensures Possible(Three(s, pk, pub, AddStart, run, Begin([op])), end, paging) && AllOver(end)
    ensures var mem := InMemory(pub, Retrieve(s.platform, pk.purposeId));
            var now := Crossed(s, pk, pub, run.job, op);
            var r2 := Retrieve(Agreements.HandleV2(s, run.job.event, run.job.a, run.job.version).value.platform,
              pk.purposeId);
            && pk in now.tokens
            && end.store == now.(tokens := now.tokens[pk := SecondRetrieval(now.tokens[pk], mem, r2)])
  {
    var r, other := Retrieve(s.platform, pk.purposeId), Begin([op]);
    var mem, start := InMemory(pub, r), Three(s, pk, pub, AddStart, run, other);
    var reached := PossibleFrom(start, paging);
    PossibleIsClosed(start, paging);
    ThreeMoves(s, pk, pub, AddStart, run, other, s, AddStart, run);
    ThreeMoves(s, pk, pub, AddStart, run, other, s, ReadAll(r), run);
    ReadsFirst(reached, start, pk, s, pub, paging);
    var sys := Three(s, pk, pub, ReadAll(r), run, other);
    ThreeMoves(s, pk, pub, ReadAll(r), run, other, s, ReadAll(r), run);
    AgreementAlone(reached, sys, 0, s, run, paging);
    var s1 := Agreements.HandleV2(s, run.job.event, run.job.a, run.job.version).value;
    var over := run.(pc := Finished);
    ThreeMoves(s, pk, pub, ReadAll(r), run, other, s1, ReadAll(r), over);
    var sys1 := Three(s1, pk, pub, ReadAll(r), over, other);
    ThreeMoves(s1, pk, pub, ReadAll(r), over, other, s1, ReadAll(r), over);
    PutsAndReads(reached, sys1, pk, s1, pub, r, paging);
    var r2 := Retrieve(s1.platform, pk.purposeId);
    var s2, reread := s1.(tokens := s1.tokens[pk := Stored(mem)]), RereadAll(mem, r2);
    ThreeMoves(s1, pk, pub, ReadAll(r), over, other, s2, reread, over);
    end := CrossingEnds(reached, s2, pk, pub, mem, r2, over, op, paging);
  }

  /** The catalog message, and then the adder's patch. */
  lemma CrossingEnds(reached: Sys -> bool, s: Store, pk: TokenPK, pub: string, mem: Entry, r: Rows, over: Running,
                     op: Catalog.Op, paging: Paging)
    returns (end: Sys)
    requires Closed(reached, paging) && pk.ClientKidPurpose? && RunOver(over)
    requires reached(Three(s, pk, pub, RereadAll(mem, r), over, Begin([op]))) && pk in s.tokens
    ensures var now := Catalog.Perform(s, op);
            && pk in now.tokens && reached(end) && AllOver(end)
            && end.store == now.(tokens := now.tokens[pk := SecondRetrieval(now.tokens[pk], mem, r)])
  {
    var now, reread, other := Catalog.Perform(s, op), RereadAll(mem, r), Begin([op]);
    var sys := Three(s, pk, pub, reread, over, other);
    ThreeMoves(s, pk, pub, reread, over, other, s, reread, other);
    CatalogAlone(reached, sys, 1, s, [op], paging);
    assert Catalog.PerformAll(s, [op]) == Catalog.PerformAll(now, []) == now;
    var ended := Ended([op]);
    ThreeMoves(s, pk, pub, reread, over, other, now, reread, ended);
    var sys' := Three(now, pk, pub, reread, over, ended);
    ThreeMoves(now, pk, pub, reread, over, ended, now, reread, over);
    AdderMovesAt(reached, sys', pk, now, pub, reread, paging);
    var s' := now.(tokens := now.tokens[pk := SecondRetrieval(now.tokens[pk], mem, r)]);
    ThreeMoves(now, pk, pub, reread, over, ended, s', AddDone(mem), over);
    end := Three(s', pk, pub, AddDone(mem), over, ended);
  }

  /** The entry is on the new descriptor, with its state from before the message, or with the old descriptor's state. */
  lemma CrossedEntry(s: Store, pk: TokenPK, pub: string, run: Running, op: Catalog.Op)
    requires pk.ClientKidPurpose? && Crosses(s.platform, run, op, pk.purposeId)
    ensures var mem := InMemory(pub, Retrieve(s.platform, pk.purposeId));
            var now := Crossed(s, pk, pub, run.job, op);
            var moved := Agreements.HandleV2(s, run.job.event, run.job.a, run.job.version).value.platform;
            var r := Retrieve(now.platform, pk.purposeId);
            && pk in now.tokens && r.catalog.Some?
            && SecondRetrieval(now.tokens[pk], mem, Retrieve(moved, pk.purposeId)).descriptorState
                 != Some(r.catalog.value.state)
  {
    var a := run.job.a;
    var action := Agreements.DecideV2(Lookup(s.platform.agreements, a.Key()), run.job.event, a, run.job.version);
    var r0, s1 := Retrieve(s.platform, pk.purposeId), Agreements.Act(s, a, action).value;
    var mem, now := InMemory(pub, r0), Crossed(s, pk, pub, run.job, op);
    assert mem.descriptor == Pointer(r0);
    assert Retrieve(s1.platform, pk.purposeId).agreement == Some(action.row);
    assert Retrieve(s1.platform, pk.purposeId).catalog == Lookup(s.platform.catalog, a.Descriptor());
    assert Retrieve(now.platform, pk.purposeId).catalog == Lookup(now.platform.catalog, a.Descriptor());
    if op.key == a.Descriptor() {
      assert now.tokens[pk] == Stored(mem);
    } else {
      assert now.tokens[pk].descriptorState == Some(op.state);
    }
  }

  lemma SafeIs(pf: Platform, run: Running, op: Catalog.Op, purposeId: Id)
    requires run.job.AgreementJob? && op.Restate?
    requires purposeId in pf.purposes && pf.purposes[purposeId].Owner() == run.job.a.Key()
    ensures Crossing.Safe(Crossing.CrossOf(pf, run, op, pf.purposes[purposeId])) <==> !Crosses(pf, run, op, purposeId)
  {
    var x := Crossing.CrossOf(pf, run, op, pf.purposes[purposeId]);
    assert Crossing.PointerIn(pf, run.job.a.Key()) == Pointer(Retrieve(pf, purposeId));
    assert x.action.Replace? ==> x.d1 == Some(run.job.a.Descriptor());
  }

  /** Two parties are never enough, and three are exactly when they cross: the adder retrieves the rows between the
      move and the message on the descriptor, and patches after it. */
  lemma DescriptorStateFollowsIff(s: Store, pk: TokenPK, pub: string, run: Running, op: Catalog.Op, paging: Paging,
                                  owners: Owners)
    requires Joined(s, owners) && pk.ClientKidPurpose? && pk.purposeId in s.platform.purposes
    requires Unread(run) && run.job.AgreementJob? && op.Restate?
    ensures Always(Three(s, pk, pub, AddStart, run, Begin([op])), paging, DescriptorOk(pk)) <==>
            !Crosses(s.platform, run, op, pk.purposeId)
  {
    var start := Three(s, pk, pub, AddStart, run, Begin([op]));
    if Crosses(s.platform, run, op, pk.purposeId) {
      var end := CrossingSchedule(s, pk, pub, run, op, paging);
      CrossedEntry(s, pk, pub, run, op);
      Refutes(start, end, paging, DescriptorOk(pk));
    } else if s.platform.purposes[pk.purposeId].Owner() == run.job.a.Key() {
      SafeIs(s.platform, run, op, pk.purposeId);
      forall moves | AllOver(Interleave(start, moves, paging))
        ensures DescriptorOk(pk)(Interleave(start, moves, paging).store)
      {
        Crossing.SafeNeverCrosses(start, moves, pk, op, paging);
      }
    } else {
      ApartMessagesNeverCross(start, 1, pk, paging, owners);
    }
  }
}
