/**
 The catalog consumer as it runs. Handling a message again after a crash gives what one uninterrupted run
 gives, with one exception: the quotas branch skips once the row holds the lifespan, so it can be run again
 wherever it dies exactly when it would not proceed, or all entries hold the lifespan before it.
 */
module CatalogHandlers {
  import opened Basics
  import opened PlatformModel
  import opened CatalogWriter
  import opened TokenGenStore

  /** The row is written first, then some of the entries. */
  ghost predicate PartlyPerformed(s: Store, now: Store, op: Op) {
    var row := Lookup(s.platform.catalog, op.key);
    || now == s
    || (&& Proceeds(op, row)
        && now.platform == SetRow(s.platform, op.key, WrittenRow(op, row))
        && PartlyPatched(s.tokens, now.tokens, ByDescriptor(op.key), EntryPatch(op)))
  }

  lemma OpsAreStable(op: Op)
    ensures Stable(ByDescriptor(op.key), EntryPatch(op))
  {
  }

  method PerformOp(t: Tables, op: Op, paging: Paging) returns (o: Outcome)
    modifies t
    ensures !o.Threw? && PartlyPerformed(old(t.Now()), t.Now(), op)
    ensures o.Done? ==> t.Now() == Perform(old(t.Now()), op)
  {
    var row := Lookup(t.platform.catalog, op.key);
    if !Proceeds(op, row) { return Done; }
    :- t.WritePlatform(SetRow(t.platform, op.key, WrittenRow(op, row)));
    OpsAreStable(op);
    o := t.UpdateAll(ByDescriptor(op.key), EntryPatch(op), paging);
  }

  // ---- running again after a crash ----

  /** Every entry of the descriptor holds the lifespan of the quotas message already. */
  ghost predicate HoldLifespan(tokens: Tokens, op: Op)
    requires op.Requota?
  {
    forall pk <- Selected(tokens, ByDescriptor(op.key)) :: tokens[pk].lifespan == Some(op.lifespan)
  }

  /** The flow can be run again wherever it died. */
  ghost predicate Resumable(s: Store, op: Op) {
    op.Requota? && Proceeds(op, Lookup(s.platform.catalog, op.key)) ==> HoldLifespan(s.tokens, op)
  }

  lemma PerformsAgain(s: Store, now: Store, op: Op)
    requires Resumable(s, op) && PartlyPerformed(s, now, op)
    ensures Perform(now, op) == Perform(s, op)
  {
    var row := Lookup(s.platform.catalog, op.key);
    if now != s {
      OpsAreStable(op);
      PatchingResumes(s.tokens, now.tokens, ByDescriptor(op.key), EntryPatch(op));
      if op.Requota? {
        HeldIsPatched(s.tokens, op);
        assert now.tokens == s.tokens;
      } else {
        assert SetRow(now.platform, op.key, WrittenRow(op, row)) == SetRow(s.platform, op.key, WrittenRow(op, row));
      }
    }
  }

  lemma HeldIsPatched(tokens: Tokens, op: Op)
    requires op.Requota? && HoldLifespan(tokens, op)
    ensures PatchAll(tokens, ByDescriptor(op.key), EntryPatch(op)) == tokens
    ensures forall finished :: finished <= Selected(tokens, ByDescriptor(op.key)) ==>
              Patched(tokens, EntryPatch(op), finished) == tokens
  {
  }

  /** A quotas update skips once its row holds the lifespan, so one that died can always be run again exactly when it
      would not have proceeded, or when every entry of the descriptor holds the lifespan before the message. */
  lemma RequotaResumesIff(s: Store, op: Op)
    requires op.Requota?
    ensures (forall now :: PartlyPerformed(s, now, op) ==> Perform(now, op) == Perform(s, op)) <==> Resumable(s, op)
  {
    if Resumable(s, op) {
      forall now | PartlyPerformed(s, now, op) ensures Perform(now, op) == Perform(s, op) { PerformsAgain(s, now, op); }
    } else {
      var row, q := Lookup(s.platform.catalog, op.key), ByDescriptor(op.key);
      var now := s.(platform := SetRow(s.platform, op.key, WrittenRow(op, row)));
      assert Patched(s.tokens, EntryPatch(op), {}) == s.tokens;
      assert PartlyPerformed(s, now, op) && Perform(now, op) == now;
      var pk :| pk in Selected(s.tokens, q) && s.tokens[pk].lifespan != Some(op.lifespan);
      assert PatchAll(s.tokens, q, EntryPatch(op))[pk].lifespan == Some(op.lifespan);
      assert Perform(s, op).tokens != now.tokens;
    }
  }

  /** Updates of entries of another descriptor commute with a half-done loop. */
  lemma TokensOvertake(before: Tokens, now: Tokens, op: Op, other: Op)
    requires PartlyPatched(before, now, ByDescriptor(op.key), EntryPatch(op)) && op.key != other.key
    ensures PartlyPatched(PatchAll(before, ByDescriptor(other.key), EntryPatch(other)),
                          PatchAll(now, ByDescriptor(other.key), EntryPatch(other)),
                          ByDescriptor(op.key), EntryPatch(op))
  {
    var q, p := ByDescriptor(op.key), EntryPatch(op);
    var finished :| finished <= Selected(before, q) && now == Patched(before, p, finished);
    var before' := PatchAll(before, ByDescriptor(other.key), EntryPatch(other));
    assert finished <= Selected(before', q);
    assert PatchAll(now, ByDescriptor(other.key), EntryPatch(other)) == Patched(before', p, finished);
  }

  lemma RowsCommute(pf: Platform, x: EserviceDescriptor, y: EserviceDescriptor, rx: Option<CatalogRow>,
                    ry: Option<CatalogRow>)
    requires x != y
    ensures SetRow(SetRow(pf, x, rx), y, ry) == SetRow(SetRow(pf, y, ry), x, rx)
  {
    assert SetRow(SetRow(pf, x, rx), y, ry).catalog == SetRow(SetRow(pf, y, ry), x, rx).catalog;
  }

  lemma Overtakes(s: Store, now: Store, op: Op, other: Op)
    requires PartlyPerformed(s, now, op) && op.key != other.key
    ensures PartlyPerformed(Perform(s, other), Perform(now, other), op)
  {
    var row := Lookup(s.platform.catalog, op.key);
    var row' := Lookup(s.platform.catalog, other.key);
    if now != s && Proceeds(other, row') {
      TokensOvertake(s.tokens, now.tokens, op, other);
      RowsCommute(s.platform, op.key, other.key, WrittenRow(op, row), WrittenRow(other, row'));
    }
  }

  /** A message that was handled up to the middle of one of its flows is handled in full by a second run. */
  lemma {:induction false} AllPerformAgain(s: Store, now: Store, ops: seq<Op>, i: nat)
    requires i < |ops| && DistinctKeys(ops) && PartlyPerformed(s, now, ops[i])
    requires if i == 0 then Resumable(s, ops[0]) else !ops[i].Requota?
    ensures PerformAll(now, ops) == PerformAll(s, ops)
    decreases i
  {
    if i == 0 {
      PerformsAgain(s, now, ops[0]);
    } else {
      Overtakes(s, now, ops[i], ops[0]);
      assert DistinctKeys(ops[1..]);
      AllPerformAgain(Perform(s, ops[0]), Perform(now, ops[0]), ops[1..], i - 1);
    }
  }

  lemma {:induction false} PerformLast(s: Store, ops: seq<Op>, op: Op)
    ensures PerformAll(s, ops + [op]) == Perform(PerformAll(s, ops), op)
    decreases |ops|
  {
    if ops == [] {
      assert ([] + [op])[1..] == [];
      assert PerformAll(Perform(s, op), []) == Perform(s, op);
    } else {
      assert (ops + [op])[1..] == ops[1..] + [op];
      PerformLast(Perform(s, ops[0]), ops[1..], op);
    }
  }

  /** The flows of one message, in order. */
  method PerformOps(t: Tables, ops: seq<Op>, paging: Paging) returns (o: Outcome)
    modifies t
    ensures !o.Threw?
    ensures o.Done? ==> t.Now() == PerformAll(old(t.Now()), ops)
    ensures (ops != [] ==> IsMessage(ops) && Resumable(old(t.Now()), ops[0])) ==>
              PerformAll(t.Now(), ops) == PerformAll(old(t.Now()), ops)
  {
    ghost var resumable := IsMessage(ops) && Resumable(t.Now(), ops[0]);
    for i := 0 to |ops|
      invariant t.Now() == PerformAll(old(t.Now()), ops[..i])
      invariant resumable ==> PerformAll(t.Now(), ops) == PerformAll(old(t.Now()), ops)
    {
      ghost var s := t.Now();
      o := PerformOp(t, ops[i], paging);
      if resumable { AllPerformAgain(s, t.Now(), ops, i); }
      if !o.Done? { return; }
      PerformLast(old(t.Now()), ops[..i], ops[i]);
      assert ops[..i + 1] == ops[..i] + [ops[i]];
    }
    assert ops[..|ops|] == ops;
    return Done;
  }

  // ---- messages ----

  lemma {:induction false} ArchivesAreDistinct(eserviceId: Id, ds: seq<Descriptor>)
    requires DistinctIds(ds)
    ensures DistinctKeys(ArchiveOps(eserviceId, ds)) && |ArchiveOps(eserviceId, ds)| == |ds|
    ensures forall i | 0 <= i < |ds| :: ArchiveOps(eserviceId, ds)[i] == ArchiveOf(eserviceId, ds[i])
  {
    if ds != [] {
      assert DistinctIds(ds[1..]);
      ArchivesAreDistinct(eserviceId, ds[1..]);
      var rest := ArchiveOps(eserviceId, ds[1..]);
      forall i | 0 <= i < |rest| ensures rest[i].key.descriptorId != ds[0].id {
        assert rest[i] == ArchiveOf(eserviceId, ds[1..][i]) && ds[1..][i] == ds[i + 1];
      }
    }
  }

  lemma {:induction false} FoundIsMember(ds: seq<Descriptor>, id: Id, number: int)
    ensures var d := FindById(ds, id); d.Some? ==> d.value in ds && d.value.id == id
    ensures var d := FindByVersion(ds, number); d.Some? ==> d.value in ds && d.value.version == number
  {
    if ds != [] { FoundIsMember(ds[1..], id, number); }
  }

  lemma IdsTellApart(ds: seq<Descriptor>, x: Descriptor, y: Descriptor)
    requires DistinctIds(ds) && x in ds && y in ds
    ensures x.id == y.id ==> x == y
  {
  }

  /** Descriptor ids are distinct, so no two flows of one message touch the same descriptor. */
  lemma OpsAreDistinct(event: EventV2, es: Eservice, version: nat, asyncOn: bool)
    requires DistinctIds(es.descriptors) && OpsV2(event, es, version, asyncOn).Ok?
    ensures var ops := OpsV2(event, es, version, asyncOn).value;
            ops != [] ==> IsMessage(ops) && (ops[0].Requota? ==> event.QuotasUpdated? && ops == [ops[0]])
  {
    if event.EserviceArchived? {
      ArchivesAreDistinct(es.id, es.descriptors);
    } else if event.DescriptorPublished? {
      var d := FindById(es.descriptors, event.descriptorId).value;
      FoundIsMember(es.descriptors, event.descriptorId, d.version - 1);
      var previous := FindByVersion(es.descriptors, d.version - 1);
      if previous.Some? { IdsTellApart(es.descriptors, previous.value, d); }
    }
  }

  /** Quotas aside, always; a quotas message, if its flow can. */
  ghost predicate CanResume(s: Store, event: EventV2, es: Eservice, version: nat, asyncOn: bool) {
    var ops := OpsV2(event, es, version, asyncOn);
    event.QuotasUpdated? && ops.Ok? ==> forall op <- ops.value :: Resumable(s, op)
  }

  method HandleMessageV2(t: Tables, event: EventV2, es: Eservice, version: nat, asyncOn: bool, paging: Paging)
    returns (o: Outcome)
    modifies t
    ensures o.Done? ==> HandleV2(old(t.Now()), event, es, version, asyncOn) == Ok(t.Now())
    ensures o.Threw? ==> HandleV2(old(t.Now()), event, es, version, asyncOn).Failed? && t.Now() == old(t.Now())
    ensures DistinctIds(es.descriptors) && CanResume(old(t.Now()), event, es, version, asyncOn) ==>
              HandleV2(t.Now(), event, es, version, asyncOn) == HandleV2(old(t.Now()), event, es, version, asyncOn)
  {
    match OpsV2(event, es, version, asyncOn)
    case Failed => return Threw;
    case Ok(ops) =>
      if DistinctIds(es.descriptors) { OpsAreDistinct(event, es, version, asyncOn); }
      o := PerformOps(t, ops, paging);
  }

  method HandleMessageV1(t: Tables, eserviceId: Id, d: Descriptor, version: nat, paging: Paging) returns (o: Outcome)
    modifies t
    ensures !o.Threw?
    ensures o.Done? ==> t.Now() == HandleV1(old(t.Now()), eserviceId, d, version)
    ensures HandleV1(t.Now(), eserviceId, d, version) == HandleV1(old(t.Now()), eserviceId, d, version)
  {
    o := PerformOps(t, OpsV1(eserviceId, d, version), paging);
  }
}
