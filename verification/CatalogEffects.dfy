/**
 What each e-service message does to the two tables, told from the snapshot and the tables alone: which
 descriptors it is about, when it acts on them, and what their rows and entries hold afterwards.
 */
module CatalogEffects {
  import opened Basics
  import opened TokenKeys
  import opened PlatformModel
  import opened CatalogWriter
  import CachedDecision
  import CatalogHandlers

  function KeyOf(eserviceId: Id, d: Descriptor): EserviceDescriptor {
    EserviceDescriptor(eserviceId, d.id)
  }

  /** Published, deprecated and archiving descriptors can be used; suspended, archived and unpublished ones cannot. */
  predicate Fits(state: ItemState, d: Descriptor) {
    state == Active <==> d.state == Published || d.state == Deprecated || d.state == Archiving
  }

  /** No row was written by a later message. */
  predicate IsNew(s: Store, key: EserviceDescriptor, version: nat) {
    key in s.platform.catalog ==> s.platform.catalog[key].version <= version
  }

  predicate Known(s: Store, key: EserviceDescriptor, version: nat) {
    key in s.platform.catalog && s.platform.catalog[key].version <= version
  }

  /** Only rows of descriptors in `keys`, and entries that point to them, have changed. */
  ghost predicate Elsewhere(s: Store, s': Store, keys: set<EserviceDescriptor>) {
    && s'.platform.purposes == s.platform.purposes && s'.platform.agreements == s.platform.agreements
    && s'.platform.clients == s.platform.clients && s'.platform.catalog - keys == s.platform.catalog - keys
    && s'.tokens.Keys == s.tokens.Keys
    && forall pk <- s.tokens | s.tokens[pk].descriptor.None? || s.tokens[pk].descriptor.value !in keys ::
         s'.tokens[pk] == s.tokens[pk]
  }

  /** The row is the descriptor's, and its entries repeat state, audience and lifespan. */
  ghost predicate IsPublished(s: Store, s': Store, eserviceId: Id, d: Descriptor, asyncExchange: Option<bool>,
                              version: nat) {
    var key := KeyOf(eserviceId, d);
    && key in s'.platform.catalog
    && var row := s'.platform.catalog[key];
       && Fits(row.state, d) && row.audience == d.audience && row.lifespan == d.lifespan
       && row.asyncExchange == asyncExchange && row.version == version
       && forall pk <- s.tokens | s.tokens[pk].descriptor == Some(key) ::
            pk in s'.tokens
            && s'.tokens[pk] == s.tokens[pk].(descriptorState := Some(row.state), audience := Some(d.audience),
                                              lifespan := Some(d.lifespan))
  }

  /** The state of the row and of its entries is the descriptor's, and nothing else of them changes. */
  ghost predicate Restated(s: Store, s': Store, eserviceId: Id, d: Descriptor, version: nat) {
    var key := KeyOf(eserviceId, d);
    && key in s.platform.catalog && key in s'.platform.catalog
    && var row := s'.platform.catalog[key];
       && Fits(row.state, d) && row == s.platform.catalog[key].(state := row.state, version := version)
       && forall pk <- s.tokens | s.tokens[pk].descriptor == Some(key) ::
            pk in s'.tokens && s'.tokens[pk] == s.tokens[pk].(descriptorState := Some(row.state))
  }

  /** The row is gone, and the entries carry the state of the snapshot. */
  ghost predicate IsArchived(s: Store, s': Store, eserviceId: Id, d: Descriptor) {
    var key := KeyOf(eserviceId, d);
    && key !in s'.platform.catalog
    && forall pk <- s.tokens | s.tokens[pk].descriptor == Some(key) ::
         && pk in s'.tokens && s'.tokens[pk].descriptorState.Some? && Fits(s'.tokens[pk].descriptorState.value, d)
         && s'.tokens[pk] == s.tokens[pk].(descriptorState := s'.tokens[pk].descriptorState)
  }

  ghost predicate Requoted(s: Store, s': Store, eserviceId: Id, d: Descriptor, version: nat) {
    var key := KeyOf(eserviceId, d);
    && key in s.platform.catalog && key in s'.platform.catalog
    && s'.platform.catalog[key] == s.platform.catalog[key].(lifespan := d.lifespan, version := version)
    && forall pk <- s.tokens | s.tokens[pk].descriptor == Some(key) ::
         pk in s'.tokens && s'.tokens[pk] == s.tokens[pk].(lifespan := Some(d.lifespan))
  }

  /** The descriptor's row and entries are as before. */
  ghost predicate Untouched(s: Store, s': Store, eserviceId: Id, d: Descriptor) {
    var key := KeyOf(eserviceId, d);
    && Lookup(s'.platform.catalog, key) == Lookup(s.platform.catalog, key)
    && forall pk <- s.tokens | s.tokens[pk].descriptor == Some(key) :: pk in s'.tokens && s'.tokens[pk] == s.tokens[pk]
  }

  /** The descriptor with the number before, the first of them if there are several. */
  predicate IsPrevious(ds: seq<Descriptor>, d: Descriptor, i: nat) {
    i < |ds| && ds[i].version == d.version - 1 && forall j | 0 <= j < i :: ds[j].version != d.version - 1
  }

  predicate HasPrevious(ds: seq<Descriptor>, d: Descriptor) {
    exists p <- ds :: p.version == d.version - 1
  }

  /** A message that names the descriptor's id means this one, the first with the id. */
  predicate IsNamed(es: Eservice, d: Descriptor) {
    exists i: nat | i < |es.descriptors| :: IsFirst(es.descriptors, d, i)
  }

  predicate IsFirst(ds: seq<Descriptor>, d: Descriptor, i: nat) {
    i < |ds| && ds[i] == d && forall j | 0 <= j < i :: ds[j].id != d.id
  }

  // ---- finding descriptors ----

  lemma {:induction false} FoundFirst(ds: seq<Descriptor>, d: Descriptor, i: nat)
    requires IsFirst(ds, d, i)
    ensures FindById(ds, d.id) == Some(d)
  {
    if i > 0 {
      assert forall j | 0 <= j < |ds| - 1 :: ds[1..][j] == ds[j + 1];
      FoundFirst(ds[1..], d, i - 1);
    }
  }

  lemma FoundById(es: Eservice, d: Descriptor)
    requires IsNamed(es, d)
    ensures FindById(es.descriptors, d.id) == Some(d)
  {
    var i: nat :| i < |es.descriptors| && IsFirst(es.descriptors, d, i);
    FoundFirst(es.descriptors, d, i);
  }

  lemma {:induction false} NotFoundById(ds: seq<Descriptor>, id: Id)
    requires forall d <- ds :: d.id != id
    ensures FindById(ds, id) == None
  {
    if ds != [] { NotFoundById(ds[1..], id); }
  }

  lemma {:induction false} FoundPrevious(ds: seq<Descriptor>, d: Descriptor, i: nat)
    requires IsPrevious(ds, d, i)
    ensures FindByVersion(ds, d.version - 1) == Some(ds[i])
  {
    if i > 0 {
      assert forall j | 0 <= j < |ds| - 1 :: ds[1..][j] == ds[j + 1];
      FoundPrevious(ds[1..], d, i - 1);
    }
  }

  lemma {:induction false} NoPrevious(ds: seq<Descriptor>, d: Descriptor)
    requires !HasPrevious(ds, d)
    ensures FindByVersion(ds, d.version - 1) == None
  {
    if ds != [] { NoPrevious(ds[1..], d); }
  }

  // ---- one flow ----

  /** A message of one flow. */
  lemma OneFlow(s: Store, op: Op)
    ensures PerformAll(s, [op]) == Perform(s, op)
    ensures Elsewhere(s, Perform(s, op), {op.key})
  {
    assert PerformAll(s, [op]) == PerformAll(Perform(s, op), []);
  }

  lemma NotNamed(s: Store, event: EventV2, es: Eservice, version: nat, asyncOn: bool)
    requires !event.EserviceArchived? && !event.OtherV2? && forall d <- es.descriptors :: d.id != event.descriptorId
    ensures HandleV2(s, event, es, version, asyncOn) == Failed
  {
    NotFoundById(es.descriptors, event.descriptorId);
  }

  lemma Ignored(s: Store, es: Eservice, version: nat, asyncOn: bool)
    ensures HandleV2(s, OtherV2, es, version, asyncOn) == Ok(s)
  {
  }

  /** Activation and suspension: only of a row that is there. */
  lemma ActivatedOrSuspended(s: Store, es: Eservice, d: Descriptor, version: nat, asyncOn: bool)
    requires IsNamed(es, d)
    ensures var r := HandleV2(s, DescriptorActivatedOrSuspended(d.id), es, version, asyncOn);
            && r.Ok? && Elsewhere(s, r.value, {KeyOf(es.id, d)})
            && if Known(s, KeyOf(es.id, d), version) then Restated(s, r.value, es.id, d, version) else r.value == s
  {
    FoundById(es, d);
    OneFlow(s, DescriptorOps(DescriptorActivatedOrSuspended(d.id), es, d, version, asyncOn)[0]);
  }

  lemma Unarchived(s: Store, es: Eservice, d: Descriptor, version: nat, asyncOn: bool)
    requires IsNamed(es, d)
    ensures var r := HandleV2(s, DescriptorUnarchived(d.id), es, version, asyncOn);
            && r.Ok? && Elsewhere(s, r.value, {KeyOf(es.id, d)})
            && if IsNew(s, KeyOf(es.id, d), version)
               then IsPublished(s, r.value, es.id, d, if asyncOn then es.asyncExchange else None, version)
               else r.value == s
  {
    FoundById(es, d);
    OneFlow(s, DescriptorOps(DescriptorUnarchived(d.id), es, d, version, asyncOn)[0]);
  }

  lemma ArchivedOne(s: Store, es: Eservice, d: Descriptor, version: nat, asyncOn: bool)
    requires IsNamed(es, d)
    ensures var r := HandleV2(s, DescriptorArchived(d.id), es, version, asyncOn);
            r.Ok? && Elsewhere(s, r.value, {KeyOf(es.id, d)}) && IsArchived(s, r.value, es.id, d)
  {
    FoundById(es, d);
    OneFlow(s, DescriptorOps(DescriptorArchived(d.id), es, d, version, asyncOn)[0]);
  }

  lemma QuotasChanged(s: Store, es: Eservice, d: Descriptor, version: nat, asyncOn: bool)
    requires IsNamed(es, d)
    ensures var r, key := HandleV2(s, QuotasUpdated(d.id), es, version, asyncOn), KeyOf(es.id, d);
            && r.Ok? && Elsewhere(s, r.value, {key})
            && if Known(s, key, version) && s.platform.catalog[key].lifespan != d.lifespan
               then Requoted(s, r.value, es.id, d, version) else r.value == s
  {
    FoundById(es, d);
    OneFlow(s, DescriptorOps(QuotasUpdated(d.id), es, d, version, asyncOn)[0]);
  }

  // ---- several flows ----

  lemma TwoFlows(s: Store, op: Op, other: Op)
    ensures PerformAll(s, [op, other]) == Perform(Perform(s, op), other)
  {
    assert [op, other][1..] == [other];
    OneFlow(Perform(s, op), other);
  }

  /** Publication without an archived descriptor before it. */
  lemma PublishedAlone(s: Store, es: Eservice, d: Descriptor, version: nat, asyncOn: bool)
    requires IsNamed(es, d)
    requires forall i: nat | IsPrevious(es.descriptors, d, i) :: es.descriptors[i].state != Archived
    ensures var r := HandleV2(s, DescriptorPublished(d.id), es, version, asyncOn);
            && r.Ok? && Elsewhere(s, r.value, {KeyOf(es.id, d)})
            && if IsNew(s, KeyOf(es.id, d), version)
               then IsPublished(s, r.value, es.id, d, if asyncOn then es.asyncExchange else None, version)
               else r.value == s
  {
    FoundById(es, d);
    if HasPrevious(es.descriptors, d) {
      var i := FirstPrevious(es.descriptors, d);
      FoundPrevious(es.descriptors, d, i);
    } else {
      NoPrevious(es.descriptors, d);
    }
    OneFlow(s, DescriptorOps(DescriptorUnarchived(d.id), es, d, version, asyncOn)[0]);
  }

  lemma {:induction false} FirstPrevious(ds: seq<Descriptor>, d: Descriptor) returns (i: nat)
    requires HasPrevious(ds, d)
    ensures IsPrevious(ds, d, i)
  {
    if ds[0].version == d.version - 1 {
      i := 0;
    } else {
      assert forall j | 0 <= j < |ds| - 1 :: ds[1..][j] == ds[j + 1];
      i := FirstPrevious(ds[1..], d);
      i := i + 1;
    }
  }

  /** Publication archives the descriptor before it, if that is archived by now. */
  lemma PublishedOver(s: Store, es: Eservice, d: Descriptor, i: nat, version: nat, asyncOn: bool)
    requires IsNamed(es, d) && IsPrevious(es.descriptors, d, i) && es.descriptors[i].state == Archived
    requires es.descriptors[i].id != d.id
    ensures var r, p := HandleV2(s, DescriptorPublished(d.id), es, version, asyncOn), es.descriptors[i];
            && r.Ok? && Elsewhere(s, r.value, {KeyOf(es.id, d), KeyOf(es.id, p)})
            && IsArchived(s, r.value, es.id, p)
            && if IsNew(s, KeyOf(es.id, d), version)
               then IsPublished(s, r.value, es.id, d, if asyncOn then es.asyncExchange else None, version)
               else Untouched(s, r.value, es.id, d)
  {
    var p := es.descriptors[i];
    FoundById(es, d);
    FoundPrevious(es.descriptors, d, i);
    var asyncExchange := if asyncOn then es.asyncExchange else None;
    TwoFlows(s, Publish(KeyOf(es.id, d), RowOf(d, asyncExchange, version)), ArchiveOf(es.id, p));
    PublishThenArchive(s, es.id, d, p, asyncExchange, version);
  }

  lemma PublishThenArchive(s: Store, eserviceId: Id, d: Descriptor, p: Descriptor, asyncExchange: Option<bool>,
                           version: nat)
    requires d.id != p.id && p.state == Archived
    ensures var publish := Publish(KeyOf(eserviceId, d), RowOf(d, asyncExchange, version));
            var s' := Perform(Perform(s, publish), ArchiveOf(eserviceId, p));
            && Elsewhere(s, s', {KeyOf(eserviceId, d), KeyOf(eserviceId, p)}) && IsArchived(s, s', eserviceId, p)
            && if IsNew(s, KeyOf(eserviceId, d), version) then IsPublished(s, s', eserviceId, d, asyncExchange, version)
               else Untouched(s, s', eserviceId, d)
  {
    var publish := Publish(KeyOf(eserviceId, d), RowOf(d, asyncExchange, version));
    var mid := Perform(s, publish);
    var s' := Perform(mid, ArchiveOf(eserviceId, p));
    OneFlow(s, publish);
    OneFlow(mid, ArchiveOf(eserviceId, p));
    ArchiveIs(mid, eserviceId, p);
    PublishIs(s, eserviceId, d, asyncExchange, version);
    ElsewhereTwice(s, mid, s', KeyOf(eserviceId, d), KeyOf(eserviceId, p));
    ArchivedAfter(s, mid, s', eserviceId, p, KeyOf(eserviceId, d));
    if IsNew(s, KeyOf(eserviceId, d), version) {
      PublishedBefore(s, mid, s', eserviceId, d, asyncExchange, version, KeyOf(eserviceId, p));
    } else {
      UntouchedElsewhere(s, s', eserviceId, d, KeyOf(eserviceId, p));
    }
  }

  lemma PublishIs(s: Store, eserviceId: Id, d: Descriptor, asyncExchange: Option<bool>, version: nat)
    ensures var s' := Perform(s, Publish(KeyOf(eserviceId, d), RowOf(d, asyncExchange, version)));
            if IsNew(s, KeyOf(eserviceId, d), version) then IsPublished(s, s', eserviceId, d, asyncExchange, version)
            else s' == s
  {
  }

  lemma ArchiveIs(s: Store, eserviceId: Id, p: Descriptor)
    ensures IsArchived(s, Perform(s, ArchiveOf(eserviceId, p)), eserviceId, p)
  {
  }

  lemma UntouchedElsewhere(s: Store, s': Store, eserviceId: Id, d: Descriptor, y: EserviceDescriptor)
    requires Elsewhere(s, s', {y}) && y != KeyOf(eserviceId, d)
    ensures Untouched(s, s', eserviceId, d)
  {
    var key := KeyOf(eserviceId, d);
    assert Lookup(s'.platform.catalog - {y}, key) == Lookup(s.platform.catalog - {y}, key);
  }

  lemma ElsewhereTwice(s: Store, mid: Store, s': Store, x: EserviceDescriptor, y: EserviceDescriptor)
    requires Elsewhere(s, mid, {x}) && Elsewhere(mid, s', {y})
    ensures Elsewhere(s, s', {x, y})
  {
    assert s'.platform.catalog - {x, y} == (s'.platform.catalog - {y}) - {x};
    assert s.platform.catalog - {x, y} == (s.platform.catalog - {x}) - {y};
    assert (mid.platform.catalog - {y}) - {x} == (mid.platform.catalog - {x}) - {y};
    forall pk | pk in s.tokens && (s.tokens[pk].descriptor.None? || s.tokens[pk].descriptor.value !in {x, y})
      ensures s'.tokens[pk] == s.tokens[pk]
    {
      assert mid.tokens[pk] == s.tokens[pk];
    }
  }

  lemma ArchivedAfter(s: Store, mid: Store, s': Store, eserviceId: Id, p: Descriptor, x: EserviceDescriptor)
    requires Elsewhere(s, mid, {x}) && x != KeyOf(eserviceId, p) && IsArchived(mid, s', eserviceId, p)
    ensures IsArchived(s, s', eserviceId, p)
  {
  }

  lemma PublishedBefore(s: Store, mid: Store, s': Store, eserviceId: Id, d: Descriptor, asyncExchange: Option<bool>,
                        version: nat, y: EserviceDescriptor)
    requires IsPublished(s, mid, eserviceId, d, asyncExchange, version)
    requires Elsewhere(mid, s', {y}) && y != KeyOf(eserviceId, d)
    ensures IsPublished(s, s', eserviceId, d, asyncExchange, version)
  {
    var key := KeyOf(eserviceId, d);
    assert key in mid.platform.catalog - {y} && key in s'.platform.catalog - {y};
    assert (mid.platform.catalog - {y})[key] == (s'.platform.catalog - {y})[key];
  }

  /** Archiving an e-service archives all its descriptors. */
  lemma ArchivedAll(s: Store, es: Eservice, version: nat, asyncOn: bool)
    requires DistinctIds(es.descriptors)
    ensures var r := HandleV2(s, EserviceArchived, es, version, asyncOn);
            && r.Ok? && Elsewhere(s, r.value, set d | d in es.descriptors :: KeyOf(es.id, d))
            && forall d <- es.descriptors :: IsArchived(s, r.value, es.id, d)
  {
    var s', ops := HandleV2(s, EserviceArchived, es, version, asyncOn).value, ArchiveOps(es.id, es.descriptors);
    CatalogHandlers.ArchivesAreDistinct(es.id, es.descriptors);
    OnlyDescriptors(s, ops);
    forall d | d in es.descriptors ensures IsArchived(s, s', es.id, d) { ArchivedOfAll(s, es, d); }
    ElsewhereOfAll(s, es);
  }

  lemma EntryArchived(s: Store, ops: seq<Op>, eserviceId: Id, d: Descriptor, pk: TokenPK)
    requires DistinctKeys(ops) && OpOn(ops, KeyOf(eserviceId, d)) == Some(ArchiveOf(eserviceId, d))
    requires pk in s.tokens && s.tokens[pk].descriptor == Some(KeyOf(eserviceId, d))
    ensures var s' := PerformAll(s, ops);
            && pk in s'.tokens && s'.tokens[pk].descriptorState.Some? && Fits(s'.tokens[pk].descriptorState.value, d)
            && s'.tokens[pk] == s.tokens[pk].(descriptorState := s'.tokens[pk].descriptorState)
  {
    EntryAfterAll(s, ops, pk);
  }

  lemma ArchivedOfAll(s: Store, es: Eservice, d: Descriptor)
    requires DistinctIds(es.descriptors) && d in es.descriptors
    ensures IsArchived(s, PerformAll(s, ArchiveOps(es.id, es.descriptors)), es.id, d)
  {
    var ops := ArchiveOps(es.id, es.descriptors);
    CatalogHandlers.ArchivesAreDistinct(es.id, es.descriptors);
    var i :| 0 <= i < |es.descriptors| && es.descriptors[i] == d;
    assert ops[i] == ArchiveOf(es.id, d) && ops[i] in ops;
    OpOnIs(ops, KeyOf(es.id, d));
    RowAfterAll(s, ops, KeyOf(es.id, d));
    forall pk | pk in s.tokens && s.tokens[pk].descriptor == Some(KeyOf(es.id, d)) {
      EntryArchived(s, ops, es.id, d, pk);
    }
  }

  lemma ElsewhereOfAll(s: Store, es: Eservice)
    requires DistinctIds(es.descriptors)
    ensures Elsewhere(s, PerformAll(s, ArchiveOps(es.id, es.descriptors)), set d | d in es.descriptors ::
              KeyOf(es.id, d))
  {
    var ops, keys := ArchiveOps(es.id, es.descriptors), set d | d in es.descriptors :: KeyOf(es.id, d);
    var s' := PerformAll(s, ops);
    CatalogHandlers.ArchivesAreDistinct(es.id, es.descriptors);
    OnlyDescriptors(s, ops);
    forall op | op in ops ensures op.key in keys {
      var i :| 0 <= i < |ops| && ops[i] == op;
      assert op == ArchiveOf(es.id, es.descriptors[i]) && es.descriptors[i] in es.descriptors;
    }
    forall k | k !in keys ensures Lookup(s'.platform.catalog, k) == Lookup(s.platform.catalog, k) {
      OpOnIs(ops, k);
      RowAfterAll(s, ops, k);
    }
    assert s'.platform.catalog - keys == s.platform.catalog - keys;
    forall pk | pk in s.tokens && (s.tokens[pk].descriptor.None? || s.tokens[pk].descriptor.value !in keys)
      ensures s'.tokens[pk] == s.tokens[pk]
    {
      OtherFlows(s, ops, pk);
    }
  }

  // ---- V1 messages ----

  lemma EffectV1(s: Store, eserviceId: Id, d: Descriptor, version: nat)
    ensures var s', key := HandleV1(s, eserviceId, d, version), KeyOf(eserviceId, d);
            && Elsewhere(s, s', {key})
            && match d.state
               case Published => if IsNew(s, key, version) then IsPublished(s, s', eserviceId, d, None, version)
                 else s' == s
               case Deprecated => if IsNew(s, key, version) then IsPublished(s, s', eserviceId, d, None, version)
                 else s' == s
               case Suspended => if Known(s, key, version) then Restated(s, s', eserviceId, d, version) else s' == s
               case Archived => IsArchived(s, s', eserviceId, d)
               case _ => s' == s
  {
    if OpsV1(eserviceId, d, version) != [] { OneFlow(s, OpsV1(eserviceId, d, version)[0]); }
  }

  // ---- what it comes to ----

  /** After a message that acts on a descriptor, but for quotas, no entry that points to it is accepted unless the
      snapshot lets the descriptor be used. */
  lemma AcceptedOnlyIfUsable(s: Store, s': Store, eserviceId: Id, d: Descriptor, asyncExchange: Option<bool>,
                             version: nat,
                             pk: TokenPK)
    requires IsPublished(s, s', eserviceId, d, asyncExchange, version) || Restated(s, s', eserviceId, d, version)
               || IsArchived(s, s', eserviceId, d)
    requires pk in s.tokens && s.tokens[pk].descriptor == Some(KeyOf(eserviceId, d))
    ensures pk in s'.tokens
    ensures CachedDecision.ValidatePlatformState(s'.tokens[pk]) == [] ==>
              d.state == Published || d.state == Deprecated || d.state == Archiving
  {
  }
}
