/** What the methods of the e-service read model keep, and what a descriptor snapshot means. */
module CatalogProperties {
  import opened Basics
  import opened VersionedTables
  import opened CatalogRows
  import opened CatalogReadModel

  // ---- server URLs and interfaces ----

  predicate HasInterface(w: Whole, d: Id) {
    exists k <- w :: k.table == Interfaces && w[k].parent == Some(d)
  }

  predicate UrlsFollow(w: Whole, k: Key<Table>)
    requires k in w
  {
    k.table == Descriptors ==> k == DescriptorKey(k.id) && (w[k].data.serverUrls == [] || HasInterface(w, k.id))
  }

  /** A descriptor without an interface row has no server URLs. */
  ghost predicate InStep(w: Whole) {
    forall k {:trigger UrlsFollow(w, k)} | k in w :: UrlsFollow(w, k)
  }

  predicate SnapshotOk(d: Descriptor) {
    d.serverUrls == [] || d.interface.Some? || d.callbackInterface.Some?
  }

  /** The event names the descriptor of the interface that it changes or removes, and a snapshot meets no primary
      key of another descriptor, as its commit requires. */
  predicate NamesDescriptor(w: Whole, op: Op) {
    match op
    case UpsertInterface(d, doc, _) => InterfaceKey(doc.id) in w ==> w[InterfaceKey(doc.id)].parent == Some(d)
    case UpdateDocOrInterface(d, doc, _) => InterfaceKey(doc.id) in w ==> w[InterfaceKey(doc.id)].parent == Some(d)
    case DeleteDocOrInterface(d, id) => InterfaceKey(id) in w ==> w[InterfaceKey(id)].parent == Some(d)
    case UpsertDescriptor(d) =>
      SnapshotOk(d) && forall k <- WithoutDescriptor(w, d.id) :: k !in Contents(DescriptorParts(d))
    case _ => true
  }

  /** Interfaces of other descriptors stay, so their URLs may. */
  lemma OthersFollow(w: Whole, w': Whole, d: Id)
    requires InStep(w)
    requires forall k <- w | k.table == Interfaces && w[k].parent != Some(d) :: k in w' && w'[k].parent == w[k].parent
    requires forall k <- w' | k.table == Descriptors && k != DescriptorKey(d) ::
               k in w && w'[k].data.serverUrls == w[k].data.serverUrls
    requires DescriptorKey(d) in w' ==> UrlsFollow(w', DescriptorKey(d))
    ensures InStep(w')
  {
    forall k | k in w' ensures UrlsFollow(w', k) {
      if k.table == Descriptors && k != DescriptorKey(d) {
        assert UrlsFollow(w, k);
        if w[k].data.serverUrls != [] {
          var i :| i in w && i.table == Interfaces && w[i].parent == Some(k.id);
          assert i in w';
        }
      }
    }
  }

  lemma DescriptorInStep(d: Descriptor)
    requires SnapshotOk(d)
    ensures DescriptorKey(d.id) in Contents(DescriptorParts(d))
              && UrlsFollow(Contents(DescriptorParts(d)), DescriptorKey(d.id))
    ensures forall k <- Contents(DescriptorParts(d)) :: k.table == Descriptors ==> k == DescriptorKey(d.id)
    ensures forall k <- Contents(DescriptorParts(d)) :: k.table == Interfaces ==>
              Contents(DescriptorParts(d))[k].parent == Some(d.id)
  {
    var parts := DescriptorParts(d);
    var w := Contents(parts);
    ContentsHold(parts);
    DescriptorPartsAreOwn(d);
    assert parts[0].key == DescriptorKey(d.id);
    forall k | k in w ensures (k.table == Descriptors ==> k == DescriptorKey(d.id) && w[k] == parts[0].content)
                              && (k.table == Interfaces ==> w[k].parent == Some(d.id))
    {
      var i :| 0 <= i < |parts| && parts[i] == Stored(k, w[k]);
    }
    if d.serverUrls != [] {
      assert parts[1].key.table == Interfaces;
      assert HasKey(parts, parts[1].key);
    }
  }

  /** Interfaces that a method leaves alone. */
  lemma OtherInterfacesStay(w: Whole, e: Id, op: Op, k: Key<Table>)
    requires NamesDescriptor(w, op) && k in w && k.table == Interfaces && w[k].parent != Some(op.Target())
    ensures k in Changed(w, e, op) && Changed(w, e, op)[k].parent == w[k].parent
  {
    if op.UpsertDescriptor? { assert k in WithoutDescriptor(w, op.descriptor.id); }
  }

  lemma OtherDescriptorsStay(w: Whole, e: Id, op: Op, k: Key<Table>)
    requires k in Changed(w, e, op) && k.table == Descriptors && k != DescriptorKey(op.Target())
    requires op.UpsertDescriptor? ==> SnapshotOk(op.descriptor)
    ensures k in w && Changed(w, e, op)[k].data.serverUrls == w[k].data.serverUrls
  {
    if op.UpsertDescriptor? { DescriptorInStep(op.descriptor); }
  }

  /** Interfaces and server URLs stay in step under every method that changes parts. */
  lemma ChangeKeepsInStep(w: Whole, e: Id, op: Op)
    requires InStep(w) && NamesDescriptor(w, op)
    ensures InStep(Changed(w, e, op))
  {
    var w' := Changed(w, e, op);
    if op.UpsertDescriptor? {
      UpsertFollows(w, op.descriptor);
    } else {
      DescriptorFollows(w, e, op);
    }
    forall k | k in w && k.table == Interfaces && w[k].parent != Some(op.Target())
      ensures k in w' && w'[k].parent == w[k].parent
    {
      OtherInterfacesStay(w, e, op, k);
    }
    forall k | k in w' && k.table == Descriptors && k != DescriptorKey(op.Target())
      ensures k in w && w'[k].data.serverUrls == w[k].data.serverUrls
    {
      OtherDescriptorsStay(w, e, op, k);
    }
    OthersFollow(w, w', op.Target());
  }

  lemma DescriptorFollows(w: Whole, e: Id, op: Op)
    requires InStep(w) && NamesDescriptor(w, op) && !op.UpsertDescriptor?
    ensures DescriptorKey(op.Target()) in Changed(w, e, op) ==>
              UrlsFollow(Changed(w, e, op), DescriptorKey(op.Target()))
  {
    var w', k := Changed(w, e, op), DescriptorKey(op.Target());
    if k in w' && k in w {
      assert UrlsFollow(w, k);
      if w[k].data.serverUrls != [] {
        var i :| i in w && i.table == Interfaces && w[i].parent == Some(k.id);
        assert i in w' ==> HasInterface(w', k.id);
      }
      match op
      case UpsertInterface(_, doc, _) => assert InterfaceKey(doc.id) in w';
      case UpdateDocOrInterface(_, doc, _) => assert InterfaceKey(doc.id) in w ==> InterfaceKey(doc.id) in w';
      case _ =>
    }
  }

  lemma UpsertFollows(w: Whole, d: Descriptor)
    requires SnapshotOk(d)
    ensures var w' := WithoutDescriptor(w, d.id) + Contents(DescriptorParts(d));
            DescriptorKey(d.id) in w' && UrlsFollow(w', DescriptorKey(d.id))
  {
    DescriptorInStep(d);
    var parts := Contents(DescriptorParts(d));
    if d.serverUrls != [] && HasInterface(parts, d.id) {
      var i :| i in parts && i.table == Interfaces && parts[i].parent == Some(d.id);
      assert i in WithoutDescriptor(w, d.id) + parts;
    }
  }

  // ---- runs ----

  datatype Event = Snapshot(eservice: Eservice) | Removal | Change(op: Op)

  /** What one e-service holds after a message that commits. */
  function Step(w: Option<Whole>, e: Id, event: Event): Option<Whole> {
    match event
    case Snapshot(eservice) => Some(Contents(AllParts(eservice)))
    case Removal => None
    case Change(op) => if w.Some? then Some(Changed(w.value, e, op)) else None
  }

  function Run(w: Option<Whole>, e: Id, events: seq<Event>): Option<Whole>
    decreases |events|
  {
    if events == [] then w else Run(Step(w, e, events[0]), e, events[1..])
  }

  ghost predicate Sound(w: Option<Whole>, event: Event) {
    match event
    case Snapshot(eservice) => DistinctParts(AllParts(eservice)) && forall d <- eservice.descriptors :: SnapshotOk(d)
    case Removal => true
    case Change(op) => w.Some? ==> NamesDescriptor(w.value, op)
  }

  ghost predicate SoundRun(w: Option<Whole>, e: Id, events: seq<Event>)
    decreases |events|
  {
    events == [] || (Sound(w, events[0]) && SoundRun(Step(w, e, events[0]), e, events[1..]))
  }

  lemma InterfacePart(d: Descriptor) returns (p: Stored)
    requires SnapshotOk(d) && d.serverUrls != []
    ensures p in DescriptorParts(d) && p.key.table == Interfaces && p.content.parent == Some(d.id)
  {
    p := DescriptorParts(d)[1];
  }

  lemma DescriptorPart(d: Descriptor, p: Stored)
    requires p in DescriptorParts(d) + ExtraParts(d)
    ensures p.key.table == Descriptors ==>
              p == Stored(DescriptorKey(d.id), Content(None, Columns(d.text, d.serverUrls, "")))
    ensures BelowDescriptor(p.key, p.content.parent, d.id)
  {
    DescriptorPartsAreOwn(d);
    if p in DescriptorParts(d) {
      var i :| 0 <= i < |DescriptorParts(d)| && DescriptorParts(d)[i] == p;
    }
  }

  lemma OwnPart(e: Eservice, p: Stored)
    requires p in OwnParts(e)
    ensures p.content.parent.None? && p.key.table != Descriptors && p.key.table != Interfaces
  {
  }

  lemma SnapshotInStep(e: Eservice)
    requires DistinctParts(AllParts(e)) && forall d <- e.descriptors :: SnapshotOk(d)
    ensures InStep(Contents(AllParts(e)))
  {
    var w := Contents(AllParts(e));
    ContentsHold(AllParts(e));
    forall k | k in w ensures UrlsFollow(w, k) {
      var p := Stored(k, w[k]);
      assert p in AllParts(e);
      if k.table == Descriptors {
        if p in OwnParts(e) { OwnPart(e, p); }
        DescriptorOfPart(e.descriptors, p);
        var d :| d in e.descriptors && p in DescriptorParts(d) + ExtraParts(d);
        DescriptorPart(d, p);
        if d.serverUrls != [] {
          var i := InterfacePart(d);
          PartsOfDescriptor(e.descriptors, d, i);
          DistinctContents(AllParts(e), i);
        }
      }
    }
  }

  /** In every reachable state a descriptor without an interface row has no server URLs. */
  lemma {:induction false} RunKeepsInStep(w: Option<Whole>, e: Id, events: seq<Event>)
    requires (w.Some? ==> InStep(w.value)) && SoundRun(w, e, events)
    ensures Run(w, e, events).Some? ==> InStep(Run(w, e, events).value)
    decreases |events|
  {
    if events != [] {
      match events[0] {
        case Snapshot(eservice) => SnapshotInStep(eservice);
        case Removal =>
        case Change(op) => if w.Some? { ChangeKeepsInStep(w.value, e, op); }
      }
      RunKeepsInStep(Step(w, e, events[0]), e, events[1..]);
    }
  }

  // ---- a descriptor snapshot ----

  function Replaced(ds: seq<Descriptor>, d: Descriptor): seq<Descriptor> {
    if ds == [] then [d]
    else if ds[0].id == d.id then [d] + ds[1..]
    else [ds[0]] + Replaced(ds[1..], d)
  }

  predicate DistinctIds(ds: seq<Descriptor>) {
    forall i, j | 0 <= i < j < |ds| :: ds[i].id != ds[j].id
  }

  lemma {:induction false} ReplacedMembers(ds: seq<Descriptor>, d: Descriptor)
    requires DistinctIds(ds)
    ensures forall x :: x in Replaced(ds, d) <==> x == d || (x in ds && x.id != d.id)
  {
    if ds != [] {
      ReplacedMembers(ds[1..], d);
      assert forall x :: x in ds <==> x == ds[0] || x in ds[1..];
      if ds[0].id == d.id {
        forall x | x in ds[1..] ensures x.id != d.id {
          var i :| 0 <= i < |ds| - 1 && ds[1..][i] == x;
          assert ds[i + 1] == x;
        }
      }
    }
  }

  /** Nothing that only `upsertEService` writes. */
  predicate Plain(d: Descriptor) {
    d.templateRef.None? && d.archivingRequests == []
  }

  lemma OwnPartsStay(e: Eservice, ds: seq<Descriptor>)
    ensures OwnParts(e.(descriptors := ds)) == OwnParts(e)
  {
    var e' := e.(descriptors := ds);
    assert RiskParts(e') == RiskParts(e) && AnswerParts(e') == AnswerParts(e)
             && OwnRequestParts(e') == OwnRequestParts(e);
  }

  /** Every part of the other snapshot is one of these contents, and nothing else is. */
  lemma ReplacedPart(e: Eservice, d: Descriptor, p: Stored)
    requires DistinctIds(e.descriptors) && Plain(d)
    ensures PartOf(e.(descriptors := Replaced(e.descriptors, d)), p) <==>
            p in DescriptorParts(d) || (PartOf(e, p) && !BelowDescriptor(p.key, p.content.parent, d.id))
  {
    ReplacedMembers(e.descriptors, d);
    OwnPartsStay(e, Replaced(e.descriptors, d));
    assert ExtraParts(d) == [];
    assert DescriptorParts(d) + ExtraParts(d) == DescriptorParts(d);
    if p in OwnParts(e) { OwnPart(e, p); }
    forall x | x in e.descriptors && p in DescriptorParts(x) + ExtraParts(x)
      ensures BelowDescriptor(p.key, p.content.parent, d.id) <==> x.id == d.id
    {
      DescriptorPart(x, p);
    }
    var ds := Replaced(e.descriptors, d);
    forall x | x in ds && p in DescriptorParts(x) + ExtraParts(x) && x != d
      ensures x in e.descriptors && x.id != d.id
    {
    }
    assert d in ds;
  }

  lemma DescriptorPartsAreDistinct(ds: seq<Descriptor>, d: Descriptor)
    requires DistinctParts(AllDescriptorParts(ds)) && d in ds && Plain(d)
    ensures DistinctParts(DescriptorParts(d))
  {
    var n := |ds| - 1;
    var init, last := AllDescriptorParts(ds[..n]), DescriptorParts(ds[n]) + ExtraParts(ds[n]);
    assert AllDescriptorParts(ds) == init + last;
    assert forall i | 0 <= i < |init| :: (init + last)[i] == init[i];
    assert forall i | 0 <= i < |last| :: (init + last)[|init| + i] == last[i];
    if d == ds[n] {
      assert forall i | 0 <= i < |DescriptorParts(d)| :: last[i] == DescriptorParts(d)[i];
    } else {
      assert ds == ds[..n] + [ds[n]];
      DescriptorPartsAreDistinct(ds[..n], d);
    }
  }

  lemma NewPartsAreDistinct(e: Eservice, d: Descriptor)
    requires DistinctIds(e.descriptors) && Plain(d)
               && DistinctParts(AllParts(e.(descriptors := Replaced(e.descriptors, d))))
    ensures DistinctParts(DescriptorParts(d))
  {
    var ds := Replaced(e.descriptors, d);
    var own, below := OwnParts(e), AllDescriptorParts(ds);
    ReplacedMembers(e.descriptors, d);
    assert AllParts(e.(descriptors := ds)) == own + below;
    assert forall i | 0 <= i < |below| :: (own + below)[|own| + i] == below[i];
    DescriptorPartsAreDistinct(ds, d);
  }

  /** The two snapshots commit. */
  predicate BothDistinct(e: Eservice, d: Descriptor) {
    && DistinctIds(e.descriptors) && FormsOk(e) && DistinctParts(AllParts(e))
    && DistinctParts(AllParts(e.(descriptors := Replaced(e.descriptors, d))))
  }

  function AfterUpsert(e: Eservice, d: Descriptor): Whole {
    Changed(Contents(AllParts(e)), e.id, UpsertDescriptor(d))
  }

  function AfterSnapshot(e: Eservice, d: Descriptor): Whole {
    Contents(AllParts(e.(descriptors := Replaced(e.descriptors, d))))
  }

  lemma UpsertedInside(e: Eservice, d: Descriptor, k: Key<Table>)
    requires Plain(d) && BothDistinct(e, d) && k in Contents(DescriptorParts(d))
    ensures Lookup(AfterSnapshot(e, d), k) == Some(Contents(DescriptorParts(d))[k])
  {
    var e', c := e.(descriptors := Replaced(e.descriptors, d)), Contents(DescriptorParts(d))[k];
    NewPartsAreDistinct(e, d);
    ContentsAre(DescriptorParts(d), k, c);
    ReplacedPart(e, d, Stored(k, c));
    PartsAre(e', Stored(k, c));
    ContentsAre(AllParts(e'), k, c);
  }

  lemma KeptByUpsert(e: Eservice, d: Descriptor, k: Key<Table>, c: Content<Columns>)
    requires BothDistinct(e, d) && k !in Contents(DescriptorParts(d))
    ensures Lookup(AfterUpsert(e, d), k) == Some(c) <==>
            PartOf(e, Stored(k, c)) && !BelowDescriptor(k, c.parent, d.id)
  {
    ContentsAre(AllParts(e), k, c);
    PartsAre(e, Stored(k, c));
  }

  lemma KeptBySnapshot(e: Eservice, d: Descriptor, k: Key<Table>, c: Content<Columns>)
    requires Plain(d) && BothDistinct(e, d) && k !in Contents(DescriptorParts(d))
    ensures Lookup(AfterSnapshot(e, d), k) == Some(c) <==>
            PartOf(e, Stored(k, c)) && !BelowDescriptor(k, c.parent, d.id)
  {
    var e' := e.(descriptors := Replaced(e.descriptors, d));
    ContentsHold(DescriptorParts(d));
    assert Stored(k, c).key == k;
    ContentsAre(AllParts(e'), k, c);
    PartsAre(e', Stored(k, c));
    ReplacedPart(e, d, Stored(k, c));
  }

  lemma UpsertedAt(e: Eservice, d: Descriptor, k: Key<Table>)
    requires Plain(d) && BothDistinct(e, d)
    ensures Lookup(AfterUpsert(e, d), k) == Lookup(AfterSnapshot(e, d), k)
  {
    if k in Contents(DescriptorParts(d)) {
      UpsertedInside(e, d, k);
    } else {
      var x, y := AfterUpsert(e, d), AfterSnapshot(e, d);
      if k in x { KeptByUpsert(e, d, k, x[k]); KeptBySnapshot(e, d, k, x[k]); }
      if k in y { KeptByUpsert(e, d, k, y[k]); KeptBySnapshot(e, d, k, y[k]); }
    }
  }

  lemma SnapshotHasExtra(e: Eservice, d: Descriptor, p: Stored)
    requires BothDistinct(e, d) && p in ExtraParts(d)
    ensures p.key in AfterSnapshot(e, d)
  {
    ReplacedMembers(e.descriptors, d);
    PartsOfDescriptor(Replaced(e.descriptors, d), d, p);
    DistinctContents(AllParts(e.(descriptors := Replaced(e.descriptors, d))), p);
  }

  lemma StoredExtraIsBelow(e: Eservice, d: Descriptor, p: Stored)
    requires p in ExtraParts(d) && p.key in Contents(AllParts(e))
    ensures Contents(AllParts(e))[p.key].parent == Some(d.id)
  {
    var q := Stored(p.key, Contents(AllParts(e))[p.key]);
    ContentsHold(AllParts(e));
    PartsAre(e, q);
    if q !in OwnParts(e) {
      var x :| x in e.descriptors && q in DescriptorParts(x) + ExtraParts(x);
      SameScope(d, p, x, q);
    }
  }

  lemma LostPart(e: Eservice, d: Descriptor, p: Stored)
    requires BothDistinct(e, d) && p in ExtraParts(d)
    ensures p.key in AfterSnapshot(e, d) && p.key !in AfterUpsert(e, d)
  {
    SnapshotHasExtra(e, d, p);
    ContentsHold(DescriptorParts(d));
    NotInDescriptorParts(d, p);
    if p.key in Contents(AllParts(e)) { StoredExtraIsBelow(e, d, p); }
  }

  lemma NotInDescriptorParts(d: Descriptor, p: Stored)
    requires p in ExtraParts(d)
    ensures !HasKey(DescriptorParts(d), p.key)
  {
  }

  lemma SameScope(d: Descriptor, p: Stored, x: Descriptor, q: Stored)
    requires p in ExtraParts(d) && q in DescriptorParts(x) + ExtraParts(x) && q.key == p.key
    ensures x.id == d.id && q.content.parent == Some(d.id)
  {
  }

  /** `upsertDescriptor` leaves what `upsertEService` leaves with that descriptor replaced exactly when the
      descriptor carries nothing that only the latter writes. */
  lemma DescriptorUpsertIsSnapshotIff(e: Eservice, d: Descriptor)
    requires BothDistinct(e, d)
    ensures AfterUpsert(e, d) == AfterSnapshot(e, d) <==> Plain(d)
  {
    var x, y := AfterUpsert(e, d), AfterSnapshot(e, d);
    if Plain(d) {
      forall k: Key<Table> ensures Lookup(x, k) == Lookup(y, k) { UpsertedAt(e, d, k); }
      forall k: Key<Table> ensures k in x <==> k in y { assert Lookup(x, k) == Lookup(y, k); }
      forall k | k in x ensures x[k] == y[k] { assert Lookup(x, k) == Lookup(y, k); }
    } else {
      var p := ExtraParts(d)[0];
      LostPart(e, d, p);
    }
  }

  /** The same for whole databases: from tables that hold the first snapshot, a committed `upsertDescriptor` and a
      committed `upsertEService` of the other one, at the same version, end alike under the same condition. */
  lemma SameTablesIff(before: Tables, x: Tables, y: Tables, e: Eservice, d: Descriptor, v: nat)
    requires BothDistinct(e, d) && Nested(before) && Current(before, Eservices, e.id, v)
    requires Rows(before, e.id) == Contents(AllParts(e)) && NamesRight(before, e.id, UpsertDescriptor(d))
    requires Does(before, x, e.id, UpsertDescriptor(d), v, Committed)
    requires Uniform(y, Eservices) && Current(y, Eservices, e.id, v) && y[Root(e.id)].version == v
    requires Rows(y, e.id) == AfterSnapshot(e, d) && OthersSame(before, y, e.id)
    ensures x == y <==> Plain(d)
  {
    DescriptorUpsertIsSnapshotIff(e, d);
    assert Rows(x, e.id) == AfterUpsert(e, d);
    if Plain(d) { SameContentsSameTables(before, x, y, Eservices, e.id); }
  }
}
