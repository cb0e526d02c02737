/**
 The SQL read model of e-services: a root table and eleven tables of parts, most of them below a descriptor.
 Snapshots replace all rows of an e-service; the other methods change rows of one descriptor and bump the
 version of the rest. The bump omits template-version references.
 */
module CatalogReadModel {
  import opened Basics
  import opened VersionedTables
  import opened CatalogRows

  // ---- what a method does to the rows of one e-service ----

  datatype Op =
    | DeleteDescriptor(descriptorId: Id)
    | UpsertDocument(descriptorId: Id, document: Part)
    | UpsertInterface(descriptorId: Id, document: Part, serverUrls: seq<string>)
    | UpdateDocOrInterface(descriptorId: Id, document: Part, serverUrls: seq<string>)
    | DeleteDocOrInterface(descriptorId: Id, documentId: Id)
    | UpsertDescriptor(descriptor: Descriptor)
  {
    function Target(): Id { if UpsertDescriptor? then descriptor.id else descriptorId }
  }

  predicate BelowDescriptor(k: Key<Table>, parent: Option<Id>, d: Id) {
    k == DescriptorKey(d) || parent == Some(d)
  }

  function WithoutDescriptor(w: Whole, d: Id): Whole {
    map k | k in w && !BelowDescriptor(k, w[k].parent, d) :: w[k]
  }

  function WithUrls(w: Whole, d: Id, urls: seq<string>): Whole {
    var k := DescriptorKey(d);
    if k in w then w[k := w[k].(data := w[k].data.(serverUrls := urls))] else w
  }

  function Changed(w: Whole, e: Id, op: Op): Whole {
    match op
    case DeleteDescriptor(d) => WithoutDescriptor(w, d)
    case UpsertDocument(d, doc) => w[DocumentKey(doc.id) := Content(Some(d), Text(doc.text))]
    case UpsertInterface(d, doc, urls) =>
      var rest := map k | k in w && !(k.table == Interfaces && w[k].parent == Some(d)) :: w[k];
      WithUrls(rest[InterfaceKey(doc.id) := Content(Some(d), Columns(doc.text, [], INTERFACE))], d, urls)
    case UpdateDocOrInterface(d, doc, urls) =>
      var i, k := InterfaceKey(doc.id), DocumentKey(doc.id);
      var w1 :=
        if i in w then WithUrls(w[i := Content(Some(d), w[i].data.(text := doc.text))], d, urls) else w;
      if k in w1 then w1[k := Content(Some(d), w1[k].data.(text := doc.text))] else w1
    case DeleteDocOrInterface(d, id) =>
      if InterfaceKey(id) in w then WithUrls(w - {InterfaceKey(id)}, d, []) else w - {DocumentKey(id)}
    case UpsertDescriptor(d) => WithoutDescriptor(w, d.id) + Contents(DescriptorParts(d))
  }

  // ---- the rows that a method leaves, key by key ----

  predicate Was(w: Whole, k: Key<Table>, c: Content<Columns>) {
    k in w && c == w[k]
  }

  /** As before, but for the server URLs of descriptor `d`. */
  predicate WasButUrls(w: Whole, k: Key<Table>, c: Content<Columns>, d: Id, urls: seq<string>) {
    if k == Key(Descriptors, "", d, 0)
    then k in w && c == Content(w[k].parent, Columns(w[k].data.text, urls, w[k].data.tag))
    else Was(w, k, c)
  }

  predicate WasButText(w: Whole, k: Key<Table>, c: Content<Columns>, d: Id, text: string) {
    k in w && c == Content(Some(d), Columns(text, w[k].data.serverUrls, w[k].data.tag))
  }

  predicate Leaves(w: Whole, op: Op, k: Key<Table>, c: Content<Columns>) {
    match op
    case DeleteDescriptor(d) => Was(w, k, c) && k != Key(Descriptors, "", d, 0) && c.parent != Some(d)
    case UpsertDocument(d, doc) =>
      if k == Key(Documents, "", doc.id, 0) then Holds(c, d, doc.text, "") else Was(w, k, c)
    case UpsertInterface(d, doc, urls) =>
      if k == Key(Interfaces, "", doc.id, 0) then Holds(c, d, doc.text, "INTERFACE")
      else if k.table == Interfaces then Was(w, k, c) && c.parent != Some(d)
      else WasButUrls(w, k, c, d, urls)
    case UpdateDocOrInterface(d, doc, urls) =>
      if k == Key(Interfaces, "", doc.id, 0) || k == Key(Documents, "", doc.id, 0)
      then WasButText(w, k, c, d, doc.text)
      else if Key(Interfaces, "", doc.id, 0) in w then WasButUrls(w, k, c, d, urls)
      else Was(w, k, c)
    case DeleteDocOrInterface(d, id) =>
      if Key(Interfaces, "", id, 0) in w then k != Key(Interfaces, "", id, 0) && WasButUrls(w, k, c, d, [])
      else k != Key(Documents, "", id, 0) && Was(w, k, c)
    case UpsertDescriptor(d) =>
      IsRow(d, k, c) || (Was(w, k, c) && k != Key(Descriptors, "", d.id, 0) && c.parent != Some(d.id))
  }

  /** The rows of the e-service after a method are those before it but for what the method is about. */
  ghost predicate Reads(before: Whole, now: Whole, op: Op) {
    forall k: Key<Table>, c: Content<Columns> :: Lookup(now, k) == Some(c) <==> Leaves(before, op, k, c)
  }

  lemma UpsertedReads(w: Whole, e: Id, d: Descriptor, k: Key<Table>, c: Content<Columns>)
    requires DistinctParts(DescriptorParts(d)) && WithoutDescriptor(w, d.id).Keys !! Contents(DescriptorParts(d)).Keys
    ensures Lookup(Changed(w, e, UpsertDescriptor(d)), k) == Some(c) <==> Leaves(w, UpsertDescriptor(d), k, c)
  {
    ContentsAre(DescriptorParts(d), k, c);
    DescriptorPartsRead(d, k, c);
  }

  lemma InterfaceReads(w: Whole, e: Id, op: Op, k: Key<Table>, c: Content<Columns>)
    requires op.UpsertInterface? || op.UpdateDocOrInterface?
    ensures Lookup(Changed(w, e, op), k) == Some(c) <==> Leaves(w, op, k, c)
  {
  }

  lemma PartReads(w: Whole, e: Id, op: Op, k: Key<Table>, c: Content<Columns>)
    requires op.DeleteDescriptor? || op.UpsertDocument? || op.DeleteDocOrInterface?
    ensures Lookup(Changed(w, e, op), k) == Some(c) <==> Leaves(w, op, k, c)
  {
  }

  lemma ChangedReads(w: Whole, e: Id, op: Op)
    requires op.UpsertDescriptor? ==>
               && DistinctParts(DescriptorParts(op.descriptor))
               && WithoutDescriptor(w, op.descriptor.id).Keys !! Contents(DescriptorParts(op.descriptor)).Keys
    ensures Reads(w, Changed(w, e, op), op)
  {
    forall k: Key<Table>, c: Content<Columns>
      ensures Lookup(Changed(w, e, op), k) == Some(c) <==> Leaves(w, op, k, c)
    {
      match op
      case UpsertDescriptor(d) => UpsertedReads(w, e, d, k, c);
      case UpsertInterface(_, _, _) => InterfaceReads(w, e, op, k, c);
      case UpdateDocOrInterface(_, _, _) => InterfaceReads(w, e, op, k, c);
      case _ => PartReads(w, e, op, k, c);
    }
  }

  /** A descriptor that can be inserted meets no other part of the e-service. */
  lemma UpsertReads(db: Tables, e: Id, d: Descriptor, v: nat)
    requires Insertable(WithoutDescriptorRows(db, d.id), Rowed(DescriptorParts(d), e, v))
    ensures Reads(Rows(db, e), Changed(Rows(db, e), e, UpsertDescriptor(d)), UpsertDescriptor(d))
  {
    var parts, news := DescriptorParts(d), Rowed(DescriptorParts(d), e, v);
    assert forall i | 0 <= i < |parts| :: news[i].key == parts[i].key;
    NewKeys(news);
    RowedContents(parts, e, v);
    assert WithoutDescriptor(Rows(db, e), d.id).Keys <= WithoutDescriptorRows(db, d.id).Keys;
    ChangedReads(Rows(db, e), e, UpsertDescriptor(d));
  }

  // ---- statements ----

  /** DELETE of a descriptor, with its cascade. */
  function WithoutDescriptorRows(db: Tables, d: Id): Tables {
    map k | k in db && !BelowDescriptor(k, db[k].parent, d) :: db[k]
  }

  /** `setServerUrls` */
  function SetUrls(db: Tables, d: Id, urls: seq<string>, v: nat): Tables {
    var k := DescriptorKey(d);
    if k in db && db[k].version <= v then db[k := db[k].(data := db[k].data.(serverUrls := urls))] else db
  }

  predicate Deletable(db: Tables, k: Key<Table>, v: nat) {
    k in db && db[k].version <= v
  }

  function Updated(row: Row<Columns>, e: Id, d: Id, v: nat, text: string): Row<Columns> {
    Row(e, Some(d), v, row.data.(text := text))
  }

  /** The statements of a method before its bump. */
  function Statements(db: Tables, e: Id, op: Op, v: nat): Tables {
    match op
    case DeleteDescriptor(d) => if Deletable(db, DescriptorKey(d), v) then WithoutDescriptorRows(db, d) else db
    case UpsertDocument(d, doc) => db[DocumentKey(doc.id) := Row(e, Some(d), v, Text(doc.text))]
    case UpsertInterface(d, doc, urls) =>
      var rest := map k | k in db && !(k.table == Interfaces && db[k].parent == Some(d)) :: db[k];
      SetUrls(rest[InterfaceKey(doc.id) := Row(e, Some(d), v, Columns(doc.text, [], INTERFACE))], d, urls, v)
    case UpdateDocOrInterface(d, doc, urls) =>
      var i, k := InterfaceKey(doc.id), DocumentKey(doc.id);
      var db1 := if Deletable(db, i, v) then SetUrls(db[i := Updated(db[i], e, d, v, doc.text)], d, urls, v) else db;
      if Deletable(db1, k, v) then db1[k := Updated(db1[k], e, d, v, doc.text)] else db1
    case DeleteDocOrInterface(d, id) =>
      var i, k := InterfaceKey(id), DocumentKey(id);
      if Deletable(db, i, v) then SetUrls(db - {i}, d, [], v) else if Deletable(db, k, v) then db - {k} else db
    case UpsertDescriptor(d) => WithoutDescriptorRows(db, d.id) + NewRows(Rowed(DescriptorParts(d), e, v))
  }

  predicate NestedAt(db: Tables, k: Key<Table>)
    requires k in db
  {
    db[k].parent.Some? ==>
      && k.table != Eservices && k.table != Descriptors && DescriptorKey(db[k].parent.value) in db
      && db[DescriptorKey(db[k].parent.value)].owner == db[k].owner
  }

  /** Parts below a descriptor belong to its e-service. */
  ghost predicate Nested(db: Tables) {
    forall k {:trigger NestedAt(db, k)} | k in db :: NestedAt(db, k)
  }

  predicate NamesPart(db: Tables, k: Key<Table>, e: Id, d: Id) {
    k in db ==> db[k].owner == e && db[k].parent == Some(d)
  }

  /** The event names the e-service and the descriptor of what it changes. */
  predicate NamesRight(db: Tables, e: Id, op: Op) {
    && !IsForeign(db, DescriptorKey(op.Target()), e)
    && match op
       case UpsertDocument(_, doc) => !IsForeign(db, DocumentKey(doc.id), e)
       case UpsertInterface(_, doc, _) => !IsForeign(db, InterfaceKey(doc.id), e)
       case UpdateDocOrInterface(d, doc, _) =>
         NamesPart(db, InterfaceKey(doc.id), e, d) && NamesPart(db, DocumentKey(doc.id), e, d)
       case DeleteDocOrInterface(d, id) => NamesPart(db, InterfaceKey(id), e, d) && NamesPart(db, DocumentKey(id), e, d)
       case _ => true
  }

  predicate Adds(op: Op) {
    op.UpsertDocument? || op.UpsertInterface? || op.UpsertDescriptor?
  }

  /** The constraints that are checked at once: foreign keys to the descriptor, and primary keys. */
  predicate Possible(db: Tables, e: Id, op: Op, v: nat) {
    match op
    case UpsertDocument(d, _) => DescriptorKey(d) in db
    case UpsertInterface(d, doc, _) =>
      DescriptorKey(d) in db && (InterfaceKey(doc.id) in db ==> db[InterfaceKey(doc.id)].parent == Some(d))
    case UpsertDescriptor(d) => Insertable(WithoutDescriptorRows(db, d.id), Rowed(DescriptorParts(d), e, v))
    case _ => true
  }

  // ---- what the statements do ----

  predicate IsOwn(n: New<Table, Columns>, e: Id, d: Id, v: nat) {
    && n.row.owner == e && n.row.version == v
    && (n.key == DescriptorKey(d) || n.row.parent == Some(d))
    && n.key.table != Eservices && n.key.table != TemplateRefs && (n.key.table == Descriptors ==> n.row.parent.None?)
  }

  lemma DescriptorPartsAreOwn(d: Descriptor)
    ensures var parts := DescriptorParts(d);
            forall i | 0 <= i < |parts| ::
              && (parts[i].key == DescriptorKey(d.id) || parts[i].content.parent == Some(d.id))
              && parts[i].key.table != Eservices && parts[i].key.table != TemplateRefs
              && (parts[i].key.table == Descriptors ==> i == 0)
    ensures |DescriptorParts(d)| > 0
    ensures DescriptorParts(d)[0] == Stored(DescriptorKey(d.id), Content(None, Columns(d.text, d.serverUrls, "")))
  {
  }

  lemma NewDescriptorRows(e: Id, d: Descriptor, v: nat)
    ensures forall k <- NewRows(Rowed(DescriptorParts(d), e, v)) ::
              IsOwn(New(k, NewRows(Rowed(DescriptorParts(d), e, v))[k]), e, d.id, v)
    ensures DescriptorKey(d.id) in NewRows(Rowed(DescriptorParts(d), e, v))
  {
    var news := Rowed(DescriptorParts(d), e, v);
    DescriptorPartsAreOwn(d);
    NewRowsHold(news);
    assert news[0].key == DescriptorKey(d.id);
    forall k | k in NewRows(news) ensures IsOwn(New(k, NewRows(news)[k]), e, d.id, v) {
      var i :| 0 <= i < |news| && news[i].key == k && news[i].row == NewRows(news)[k];
      assert news[i] == New(k, NewRows(news)[k]);
    }
  }

  lemma AllBumped()
    ensures forall t: Table :: t in ToSet(BUMPED) <==> t != TemplateRefs
  {
    assert BUMPED[0] == Eservices && BUMPED[1] == Descriptors && BUMPED[2] == RejectionReasons
             && BUMPED[3] == Interfaces;
    assert BUMPED[4] == Documents && BUMPED[5] == Attributes && BUMPED[6] == RiskAnalyses && BUMPED[7] == RiskAnswers;
    assert BUMPED[8] == ArchivingSchedules && BUMPED[9] == AsyncProperties && BUMPED[10] == ArchivingRequests;
  }

  /** Rows below a descriptor of the e-service are its own. */
  lemma BelowIsOwn(db: Tables, e: Id, d: Id, k: Key<Table>)
    requires Uniform(db, Eservices) && Nested(db) && !IsForeign(db, DescriptorKey(d), e)
    requires k in db && BelowDescriptor(k, db[k].parent, d)
    ensures db[k].owner == e && DescriptorKey(d) in db && k.table != Eservices
  {
    assert NestedAt(db, k);
  }

  /** The state that a method starts from: uniform, nested, the e-service current, the event naming its own. */
  ghost predicate Ready(db: Tables, e: Id, op: Op, v: nat) {
    && Uniform(db, Eservices) && Nested(db) && Current(db, Eservices, e, v)
    && NamesRight(db, e, op) && Possible(db, e, op, v)
  }

  lemma OwnIsNotNewer(db: Tables, e: Id, v: nat, k: Key<Table>)
    requires Uniform(db, Eservices) && Current(db, Eservices, e, v) && !IsForeign(db, k, e)
    ensures k in db ==> db[k].version <= v
  {
    if k in db { assert Refers(db, Eservices, k); }
  }

  ghost predicate Touches(db: Tables, tx: Tables, e: Id, v: nat) {
    TouchesOwn(db, tx, Eservices, ToSet(BUMPED), e, v)
  }

  lemma PutTouches(db: Tables, tx: Tables, e: Id, v: nat, k: Key<Table>, row: Row<Columns>)
    requires Touches(db, tx, e, v) && k.table != Eservices && k.table != TemplateRefs && !IsForeign(db, k, e)
    requires row.owner == e && row.version <= v
    ensures Touches(db, tx[k := row], e, v)
  {
    AllBumped();
  }

  /** Rows of the e-service may go, its root excepted. */
  lemma DropTouches(db: Tables, tx: Tables, e: Id, v: nat)
    requires forall k <- tx :: SameRow(db, tx, k)
    requires forall k <- db :: k in tx || (db[k].owner == e && k.table != Eservices)
    ensures Touches(db, tx, e, v)
  {
  }

  lemma UrlsTouch(db: Tables, tx: Tables, e: Id, v: nat, d: Id, urls: seq<string>)
    requires Touches(db, tx, e, v) && !IsForeign(db, DescriptorKey(d), e) && !IsForeign(tx, DescriptorKey(d), e)
    ensures Touches(db, SetUrls(tx, d, urls, v), e, v)
  {
    var k := DescriptorKey(d);
    if k in tx && tx[k].version <= v {
      PutTouches(db, tx, e, v, k, tx[k].(data := tx[k].data.(serverUrls := urls)));
    }
  }

  lemma WithoutDescriptorTouches(db: Tables, e: Id, d: Id, v: nat)
    requires Uniform(db, Eservices) && Nested(db) && !IsForeign(db, DescriptorKey(d), e)
    ensures Touches(db, WithoutDescriptorRows(db, d), e, v)
  {
    forall k | k in db && BelowDescriptor(k, db[k].parent, d) ensures db[k].owner == e && k.table != Eservices {
      BelowIsOwn(db, e, d, k);
    }
    DropTouches(db, WithoutDescriptorRows(db, d), e, v);
  }

  lemma AddTouches(db: Tables, tx: Tables, e: Id, v: nat, d: Id, more: Tables)
    requires Touches(db, tx, e, v)
    requires forall k <- more :: IsOwn(New(k, more[k]), e, d, v) && !IsForeign(db, k, e)
    ensures Touches(db, tx + more, e, v)
  {
    AllBumped();
  }

  lemma InsertedIsOwn(db: Tables, e: Id, d: Descriptor, v: nat, k: Key<Table>)
    requires Ready(db, e, UpsertDescriptor(d), v) && k in NewRows(Rowed(DescriptorParts(d), e, v))
    ensures !IsForeign(db, k, e)
  {
    NewKeys(Rowed(DescriptorParts(d), e, v));
    if k in db {
      assert k !in WithoutDescriptorRows(db, d.id);
      BelowIsOwn(db, e, d.id, k);
    }
  }

  lemma UpsertDescriptorTouches(db: Tables, e: Id, d: Descriptor, v: nat)
    requires Ready(db, e, UpsertDescriptor(d), v)
    ensures Touches(db, Statements(db, e, UpsertDescriptor(d), v), e, v)
  {
    var more := NewRows(Rowed(DescriptorParts(d), e, v));
    NewDescriptorRows(e, d, v);
    WithoutDescriptorTouches(db, e, d.id, v);
    forall k | k in more ensures IsOwn(New(k, more[k]), e, d.id, v) && !IsForeign(db, k, e) {
      InsertedIsOwn(db, e, d, v, k);
    }
    AddTouches(db, WithoutDescriptorRows(db, d.id), e, v, d.id, more);
  }

  lemma UpsertInterfaceTouches(db: Tables, e: Id, d: Id, doc: Part, urls: seq<string>, v: nat)
    requires Ready(db, e, UpsertInterface(d, doc, urls), v)
    ensures Touches(db, Statements(db, e, UpsertInterface(d, doc, urls), v), e, v)
  {
    var rest := map k | k in db && !(k.table == Interfaces && db[k].parent == Some(d)) :: db[k];
    forall k | k in db && k !in rest ensures db[k].owner == e { BelowIsOwn(db, e, d, k); }
    DropTouches(db, rest, e, v);
    var row := Row(e, Some(d), v, Columns(doc.text, [], INTERFACE));
    PutTouches(db, rest, e, v, InterfaceKey(doc.id), row);
    UrlsTouch(db, rest[InterfaceKey(doc.id) := row], e, v, d, urls);
  }

  lemma UpdateTouches(db: Tables, e: Id, d: Id, doc: Part, urls: seq<string>, v: nat)
    requires Ready(db, e, UpdateDocOrInterface(d, doc, urls), v)
    ensures Touches(db, Statements(db, e, UpdateDocOrInterface(d, doc, urls), v), e, v)
  {
    var i, k := InterfaceKey(doc.id), DocumentKey(doc.id);
    DropTouches(db, db, e, v);
    var db1 := if Deletable(db, i, v) then SetUrls(db[i := Updated(db[i], e, d, v, doc.text)], d, urls, v) else db;
    if Deletable(db, i, v) {
      PutTouches(db, db, e, v, i, Updated(db[i], e, d, v, doc.text));
      UrlsTouch(db, db[i := Updated(db[i], e, d, v, doc.text)], e, v, d, urls);
    }
    if Deletable(db1, k, v) { PutTouches(db, db1, e, v, k, Updated(db1[k], e, d, v, doc.text)); }
  }

  lemma DeleteTouches(db: Tables, e: Id, d: Id, id: Id, v: nat)
    requires Ready(db, e, DeleteDocOrInterface(d, id), v)
    ensures Touches(db, Statements(db, e, DeleteDocOrInterface(d, id), v), e, v)
  {
    DropTouches(db, db, e, v);
    if Deletable(db, InterfaceKey(id), v) {
      DropTouches(db, db - {InterfaceKey(id)}, e, v);
      UrlsTouch(db, db - {InterfaceKey(id)}, e, v, d, []);
    } else if Deletable(db, DocumentKey(id), v) {
      DropTouches(db, db - {DocumentKey(id)}, e, v);
    }
  }

  lemma StatementsTouchOwn(db: Tables, e: Id, op: Op, v: nat)
    requires Ready(db, e, op, v)
    ensures Touches(db, Statements(db, e, op, v), e, v)
  {
    match op
    case DeleteDescriptor(d) =>
      DropTouches(db, db, e, v);
      WithoutDescriptorTouches(db, e, d, v);
    case UpsertDocument(d, doc) =>
      DropTouches(db, db, e, v);
      PutTouches(db, db, e, v, DocumentKey(doc.id), Row(e, Some(d), v, Text(doc.text)));
    case UpsertInterface(d, doc, urls) => UpsertInterfaceTouches(db, e, d, doc, urls, v);
    case UpdateDocOrInterface(d, doc, urls) => UpdateTouches(db, e, d, doc, urls, v);
    case DeleteDocOrInterface(d, id) => DeleteTouches(db, e, d, id, v);
    case UpsertDescriptor(d) => UpsertDescriptorTouches(db, e, d, v);
  }

  // ---- the rows that the statements leave ----

  lemma WithoutDescriptorLeaves(db: Tables, e: Id, d: Id)
    ensures Rows(WithoutDescriptorRows(db, d), e) == WithoutDescriptor(Rows(db, e), d)
  {
  }

  lemma UrlsLeave(db: Tables, e: Id, d: Id, urls: seq<string>, v: nat)
    requires !IsForeign(db, DescriptorKey(d), e) && (DescriptorKey(d) in db ==> db[DescriptorKey(d)].version <= v)
    ensures Rows(SetUrls(db, d, urls, v), e) == WithUrls(Rows(db, e), d, urls)
  {
  }

  lemma PutLeaves(db: Tables, e: Id, k: Key<Table>, row: Row<Columns>)
    requires row.owner == e
    ensures Rows(db[k := row], e) == Rows(db, e)[k := Content(row.parent, row.data)]
  {
  }

  lemma DropLeaves(db: Tables, e: Id, k: Key<Table>)
    ensures Rows(db - {k}, e) == Rows(db, e) - {k}
  {
  }

  lemma {:induction false} RowedContents(parts: seq<Stored>, e: Id, v: nat)
    ensures Rows(NewRows(Rowed(parts, e, v)), e) == Contents(parts)
    ensures forall k <- NewRows(Rowed(parts, e, v)) :: NewRows(Rowed(parts, e, v))[k].owner == e
  {
    if parts != [] {
      var n, news := |parts| - 1, Rowed(parts, e, v);
      RowedContents(parts[..n], e, v);
      assert news[..n] == Rowed(parts[..n], e, v);
      PutLeaves(NewRows(news[..n]), e, news[n].key, news[n].row);
    }
  }

  lemma AddLeaves(db: Tables, e: Id, more: Tables)
    requires forall k <- more :: more[k].owner == e && !IsForeign(db, k, e)
    ensures Rows(db + more, e) == Rows(db, e) + Rows(more, e)
  {
  }

  lemma UpsertDescriptorLeaves(db: Tables, e: Id, d: Descriptor, v: nat)
    requires Ready(db, e, UpsertDescriptor(d), v)
    ensures Rows(Statements(db, e, UpsertDescriptor(d), v), e) == Changed(Rows(db, e), e, UpsertDescriptor(d))
  {
    var rest, more := WithoutDescriptorRows(db, d.id), NewRows(Rowed(DescriptorParts(d), e, v));
    WithoutDescriptorLeaves(db, e, d.id);
    RowedContents(DescriptorParts(d), e, v);
    forall k | k in more ensures more[k].owner == e && !IsForeign(rest, k, e) {
      InsertedIsOwn(db, e, d, v, k);
    }
    AddLeaves(rest, e, more);
  }

  lemma UpdateLeaves(db: Tables, e: Id, d: Id, doc: Part, urls: seq<string>, v: nat)
    requires Ready(db, e, UpdateDocOrInterface(d, doc, urls), v)
    ensures Rows(Statements(db, e, UpdateDocOrInterface(d, doc, urls), v), e) ==
            Changed(Rows(db, e), e, UpdateDocOrInterface(d, doc, urls))
  {
    var i, k := InterfaceKey(doc.id), DocumentKey(doc.id);
    OwnIsNotNewer(db, e, v, i);
    OwnIsNotNewer(db, e, v, k);
    OwnIsNotNewer(db, e, v, DescriptorKey(d));
    var db1 := if Deletable(db, i, v) then SetUrls(db[i := Updated(db[i], e, d, v, doc.text)], d, urls, v) else db;
    if i in db {
      PutLeaves(db, e, i, Updated(db[i], e, d, v, doc.text));
      UrlsLeave(db[i := Updated(db[i], e, d, v, doc.text)], e, d, urls, v);
    }
    if k in db1 {
      PutLeaves(db1, e, k, Updated(db1[k], e, d, v, doc.text));
    }
  }

  lemma StatementsLeave(db: Tables, e: Id, op: Op, v: nat)
    requires Ready(db, e, op, v)
    ensures Rows(Statements(db, e, op, v), e) == Changed(Rows(db, e), e, op)
  {
    match op
    case DeleteDescriptor(d) =>
      OwnIsNotNewer(db, e, v, DescriptorKey(d));
      WithoutDescriptorLeaves(db, e, d);
      if DescriptorKey(d) !in db { NothingBelow(db, e, d); }
    case UpsertDocument(d, doc) => PutLeaves(db, e, DocumentKey(doc.id), Row(e, Some(d), v, Text(doc.text)));
    case UpsertInterface(d, doc, urls) =>
      OwnIsNotNewer(db, e, v, DescriptorKey(d));
      var rest := map k | k in db && !(k.table == Interfaces && db[k].parent == Some(d)) :: db[k];
      var w := Rows(db, e);
      assert Rows(rest, e) == map k | k in w && !(k.table == Interfaces && w[k].parent == Some(d)) :: w[k];
      var row := Row(e, Some(d), v, Columns(doc.text, [], INTERFACE));
      PutLeaves(rest, e, InterfaceKey(doc.id), row);
      UrlsLeave(rest[InterfaceKey(doc.id) := row], e, d, urls, v);
    case UpdateDocOrInterface(d, doc, urls) => UpdateLeaves(db, e, d, doc, urls, v);
    case DeleteDocOrInterface(d, id) =>
      OwnIsNotNewer(db, e, v, InterfaceKey(id));
      OwnIsNotNewer(db, e, v, DocumentKey(id));
      OwnIsNotNewer(db, e, v, DescriptorKey(d));
      DropLeaves(db, e, InterfaceKey(id));
      DropLeaves(db, e, DocumentKey(id));
      UrlsLeave(db - {InterfaceKey(id)}, e, d, [], v);
    case UpsertDescriptor(d) => UpsertDescriptorLeaves(db, e, d, v);
  }

  lemma NothingBelow(db: Tables, e: Id, d: Id)
    requires Nested(db) && DescriptorKey(d) !in db
    ensures WithoutDescriptor(Rows(db, e), d) == Rows(db, e)
  {
    forall k | k in db ensures !BelowDescriptor(k, db[k].parent, d) { assert NestedAt(db, k); }
  }

  // ---- stale calls ----

  lemma StaleIsNewer(db: Tables, e: Id, v: nat, k: Key<Table>)
    requires Uniform(db, Eservices) && !Current(db, Eservices, e, v) && !IsForeign(db, k, e)
    ensures !Deletable(db, k, v)
  {
    if k in db { assert Refers(db, Eservices, k); }
  }

  /** Without an up-front check the guards of the rows themselves make a stale call harmless. */
  lemma StaleStatementsAreNoOp(db: Tables, e: Id, op: Op, v: nat)
    requires Uniform(db, Eservices) && !Current(db, Eservices, e, v) && NamesRight(db, e, op) && !Adds(op)
    ensures Statements(db, e, op, v) == db && Bumped(db, ToSet(BUMPED), e, v) == db
  {
    StaleBumpIsNoOp(db, Eservices, ToSet(BUMPED), e, v);
    match op
    case DeleteDescriptor(d) => StaleIsNewer(db, e, v, DescriptorKey(d));
    case UpdateDocOrInterface(_, doc, _) =>
      StaleIsNewer(db, e, v, InterfaceKey(doc.id));
      StaleIsNewer(db, e, v, DocumentKey(doc.id));
    case DeleteDocOrInterface(_, id) =>
      StaleIsNewer(db, e, v, InterfaceKey(id));
      StaleIsNewer(db, e, v, DocumentKey(id));
  }

  // ---- parts stay below their descriptors ----

  lemma PutStaysNested(tx: Tables, k: Key<Table>, row: Row<Columns>, d: Id)
    requires Nested(tx) && DescriptorKey(d) in tx && tx[DescriptorKey(d)].owner == row.owner && row.parent == Some(d)
    requires k.table == Interfaces || k.table == Documents
    ensures Nested(tx[k := row])
  {
    var tx' := tx[k := row];
    forall x | x in tx' ensures NestedAt(tx', x) {
      if x != k { assert NestedAt(tx, x); }
    }
  }

  lemma UrlsStayNested(tx: Tables, d: Id, urls: seq<string>, v: nat)
    requires Nested(tx)
    ensures Nested(SetUrls(tx, d, urls, v))
  {
    var tx' := SetUrls(tx, d, urls, v);
    forall x | x in tx' ensures NestedAt(tx', x) { assert NestedAt(tx, x); }
  }

  lemma DropStaysNested(db: Tables, tx: Tables)
    requires Nested(db) && forall k <- tx :: SameRow(db, tx, k)
    requires forall k <- db :: k in tx || k.table == Interfaces || k.table == Documents
    ensures Nested(tx)
  {
    forall x | x in tx ensures NestedAt(tx, x) { assert SameRow(db, tx, x) && NestedAt(db, x); }
  }

  lemma WithoutDescriptorStaysNested(db: Tables, d: Id)
    requires Nested(db)
    ensures Nested(WithoutDescriptorRows(db, d))
  {
    var tx := WithoutDescriptorRows(db, d);
    forall x | x in tx ensures NestedAt(tx, x) {
      assert NestedAt(db, x);
      if db[x].parent.Some? { assert NestedAt(db, DescriptorKey(db[x].parent.value)); }
    }
  }

  lemma BumpStaysNested(tx: Tables, e: Id, v: nat)
    requires Nested(tx)
    ensures Nested(Bumped(tx, ToSet(BUMPED), e, v))
  {
    forall x | x in tx ensures NestedAt(Bumped(tx, ToSet(BUMPED), e, v), x) { assert NestedAt(tx, x); }
  }

  lemma UpsertDescriptorStaysNested(db: Tables, e: Id, d: Descriptor, v: nat)
    requires Ready(db, e, UpsertDescriptor(d), v)
    ensures Nested(Statements(db, e, UpsertDescriptor(d), v))
  {
    var rest, more := WithoutDescriptorRows(db, d.id), NewRows(Rowed(DescriptorParts(d), e, v));
    var tx := rest + more;
    WithoutDescriptorStaysNested(db, d.id);
    NewDescriptorRows(e, d, v);
    NewKeys(Rowed(DescriptorParts(d), e, v));
    forall x | x in tx ensures NestedAt(tx, x) {
      if x in more {
        assert IsOwn(New(x, more[x]), e, d.id, v)
                 && IsOwn(New(DescriptorKey(d.id), more[DescriptorKey(d.id)]), e, d.id, v);
      } else {
        assert NestedAt(rest, x);
      }
    }
  }

  lemma UpsertInterfaceStaysNested(db: Tables, e: Id, d: Id, doc: Part, urls: seq<string>, v: nat)
    requires Ready(db, e, UpsertInterface(d, doc, urls), v)
    ensures Nested(Statements(db, e, UpsertInterface(d, doc, urls), v))
  {
    var rest := map k | k in db && !(k.table == Interfaces && db[k].parent == Some(d)) :: db[k];
    DropStaysNested(db, rest);
    var row := Row(e, Some(d), v, Columns(doc.text, [], INTERFACE));
    PutStaysNested(rest, InterfaceKey(doc.id), row, d);
    UrlsStayNested(rest[InterfaceKey(doc.id) := row], d, urls, v);
  }

  lemma UpdateStaysNested(db: Tables, e: Id, d: Id, doc: Part, urls: seq<string>, v: nat)
    requires Ready(db, e, UpdateDocOrInterface(d, doc, urls), v)
    ensures Nested(Statements(db, e, UpdateDocOrInterface(d, doc, urls), v))
  {
    var i, k := InterfaceKey(doc.id), DocumentKey(doc.id);
    var db1 := if Deletable(db, i, v) then SetUrls(db[i := Updated(db[i], e, d, v, doc.text)], d, urls, v) else db;
    if i in db { assert NestedAt(db, i); }
    if k in db { assert NestedAt(db, k); }
    if Deletable(db, i, v) {
      PutStaysNested(db, i, Updated(db[i], e, d, v, doc.text), d);
      UrlsStayNested(db[i := Updated(db[i], e, d, v, doc.text)], d, urls, v);
    }
    if Deletable(db1, k, v) { PutStaysNested(db1, k, Updated(db1[k], e, d, v, doc.text), d); }
  }

  lemma StatementsStayNested(db: Tables, e: Id, op: Op, v: nat)
    requires Ready(db, e, op, v)
    ensures Nested(Bumped(Statements(db, e, op, v), ToSet(BUMPED), e, v))
  {
    match op {
      case DeleteDescriptor(d) => WithoutDescriptorStaysNested(db, d);
      case UpsertDocument(d, doc) => PutStaysNested(db, DocumentKey(doc.id), Row(e, Some(d), v, Text(doc.text)), d);
      case UpsertInterface(d, doc, urls) => UpsertInterfaceStaysNested(db, e, d, doc, urls, v);
      case UpdateDocOrInterface(d, doc, urls) => UpdateStaysNested(db, e, d, doc, urls, v);
      case DeleteDocOrInterface(d, id) =>
        DropStaysNested(db, db - {InterfaceKey(id)});
        DropStaysNested(db, db - {DocumentKey(id)});
        UrlsStayNested(db - {InterfaceKey(id)}, d, [], v);
      case UpsertDescriptor(d) => UpsertDescriptorStaysNested(db, e, d, v);
    }
    BumpStaysNested(Statements(db, e, op, v), e, v);
  }

  // ---- the writer ----

  /** Template-version references are stored for the e-service. */
  ghost predicate HasTemplateRefs(w: Whole) {
    exists k :: k in w && k.table == TemplateRefs
  }

  /** What a method on parts of e-service `e` promises. It commits exactly when the immediate constraints hold
      and the e-service is left without template-version references or its version does not change. */
  ghost predicate Does(before: Tables, now: Tables, e: Id, op: Op, version: nat, o: Transaction) {
    && Uniform(now, Eservices) && (o.Aborted? ==> now == before)
    && (NamesRight(before, e, op) && Nested(before) ==>
          && Nested(now)
          && (IsStale(before, Eservices, e, version) ==> o.Committed? && now == before)
          && (!Exists(before, Eservices, e) ==> now == before && (o.Aborted? <==> Adds(op)))
          && (Current(before, Eservices, e, version) ==>
                var w := Changed(Rows(before, e), e, op);
                && (o.Committed? <==>
                      && Possible(before, e, op, version)
                      && (!HasTemplateRefs(w) || before[Root(e)].version == version))
                && (o.Committed? ==>
                      && Current(now, Eservices, e, version) && now[Root(e)].version == version
                      && Rows(now, e) == w && Reads(Rows(before, e), w, op) && OthersSame(before, now, e))))
  }

  /** A transaction on a current e-service, as a whole. */
  lemma StatementsDo(db: Tables, e: Id, op: Op, v: nat)
    requires Ready(db, e, op, v)
    ensures var tx := Bumped(Statements(db, e, op, v), ToSet(BUMPED), e, v);
            var o := if Uniform(tx, Eservices) then Committed else Aborted;
            Does(db, if o.Committed? then tx else db, e, op, v, o)
  {
    var tx := Statements(db, e, op, v);
    AllBumped();
    StatementsTouchOwn(db, e, op, v);
    TouchAndBump(db, tx, Eservices, ToSet(BUMPED), e, v);
    StatementsLeave(db, e, op, v);
    StatementsStayNested(db, e, op, v);
    if op.UpsertDescriptor? { UpsertReads(db, e, op.descriptor, v); } else { ChangedReads(Rows(db, e), e, op); }
    OmittedAreTemplateRefs(tx, e);
  }

  lemma OmittedAreTemplateRefs(tx: Tables, e: Id)
    ensures HasOmitted(tx, ToSet(BUMPED), e) <==> HasTemplateRefs(Rows(tx, e))
  {
    AllBumped();
    if HasOmitted(tx, ToSet(BUMPED), e) {
      var k :| k in tx && tx[k].owner == e && k.table !in ToSet(BUMPED);
      assert k in Rows(tx, e);
    }
  }

  /** The transaction, statement by statement, whatever the event names: methods that add check the version, the
      e-service and what is checked at once; the commit checks the versions. */
  ghost predicate Runs(before: Tables, now: Tables, e: Id, op: Op, version: nat, o: Transaction) {
    var tx := Bumped(Statements(before, e, op, version), ToSet(BUMPED), e, version);
    if Adds(op) && IsStale(before, Eservices, e, version) then o.Committed? && now == before
    else
      && (o.Committed? <==>
            (Adds(op) ==> Exists(before, Eservices, e) && Possible(before, e, op, version)) && Uniform(tx, Eservices))
      && now == if o.Committed? then tx else before
  }

  lemma StatementsKeepRoots(db: Tables, e: Id, op: Op, v: nat)
    ensures forall x: Id {:trigger Root(x)} :: Root(x) in Statements(db, e, op, v) && Root(x) in db ==>
              Statements(db, e, op, v)[Root(x)] == db[Root(x)]
  {
    if op.UpsertDescriptor? {
      NewDescriptorRows(e, op.descriptor, v);
      var more := NewRows(Rowed(DescriptorParts(op.descriptor), e, v));
      forall x: Id ensures Root(x) !in more {
        assert Root(x) in more ==> IsOwn(New(Root(x), more[Root(x)]), e, op.descriptor.id, v);
      }
    }
  }

  lemma RunsAreNeverOlder(before: Tables, now: Tables, e: Id, op: Op, version: nat, o: Transaction)
    requires Runs(before, now, e, op, version, o)
    ensures NeverOlder(before, now, Eservices)
  {
    StatementsKeepRoots(before, e, op, version);
    var tx := Statements(before, e, op, version);
    forall x: Id
      ensures Exists(tx, Eservices, x) && Exists(before, Eservices, x) ==>
                tx[RootKey(Eservices, x)] == before[RootKey(Eservices, x)]
    {
      assert Root(x) == RootKey(Eservices, x);
    }
    BumpIsNeverOlder(before, tx, Eservices, ToSet(BUMPED), e, version);
  }

  class CatalogWriter {
    var db: Tables

    constructor ()
      ensures db == map[] && Uniform(db, Eservices) && Nested(db)
    {
      db := map[];
    }

    /** COMMIT: the deferred foreign keys are checked. */
    method Commit(tx: Tables) returns (o: Transaction)
      modifies this
      ensures o.Committed? <==> Uniform(tx, Eservices)
      ensures db == if o.Committed? then tx else old(db)
    {
      if !Uniform(tx, Eservices) { return Aborted; }
      db := tx;
      return Committed;
    }

    /** `updateMetadataVersionInCatalogTables`, then the commit; `tx` is what the statements of the method left. */
    method Finish(tx: Tables, e: Id, version: nat, ghost op: Op) returns (o: Transaction)
      requires Uniform(db, Eservices) && tx == Statements(db, e, op, version)
      requires Adds(op) ==> Current(db, Eservices, e, version) && Possible(db, e, op, version)
      modifies this
      ensures Does(old(db), db, e, op, version, o)
      ensures Runs(old(db), db, e, op, version, o) && NeverOlder(old(db), db, Eservices)
    {
      ghost var before := db;
      var bumped := Bump(tx, BUMPED, e, version);
      if NamesRight(before, e, op) && Nested(before) {
        if Current(before, Eservices, e, version) {
          StatementsDo(before, e, op, version);
        } else {
          StaleStatementsAreNoOp(before, e, op, version);
        }
      }
      o := Commit(bumped);
      RunsAreNeverOlder(before, db, e, op, version, o);
    }

    method UpsertEservice(e: Eservice, version: nat) returns (o: Transaction)
      requires Uniform(db, Eservices)
      modifies this
      ensures Uniform(db, Eservices) && (Nested(old(db)) ==> Nested(db))
      ensures o.Aborted? || IsStale(old(db), Eservices, e.id, version) ==> db == old(db)
      ensures !IsStale(old(db), Eservices, e.id, version) ==>
                (o.Committed? <==> Insertable(Without(old(db), e.id), Rowed(AllParts(e), e.id, version)) && FormsOk(e))
      ensures !IsStale(old(db), Eservices, e.id, version) && o.Committed? ==>
                && Current(db, Eservices, e.id, version) && db[Root(e.id)].version == version
                && Rows(db, e.id) == Contents(AllParts(e)) && ReadsAs(Rows(db, e.id), e)
                && OthersSame(old(db), db, e.id)
      ensures NeverOlder(old(db), db, Eservices)
    {
      if IsStale(db, Eservices, e.id, version) { return Committed; }
      var ok, tx := InsertAll(Without(db, e.id), Rowed(AllParts(e), e.id, version));
      if !ok || !FormsOk(e) { return Aborted; }
      WithoutIsUniform(db, Eservices, e.id);
      SnapshotIsUniform(Without(db, e.id), e, version);
      SnapshotLeaves(db, e, version);
      InsertedReads(Without(db, e.id), e, version);
      OneChangeIsNeverOlder(db, tx, Eservices, e.id);
      if Nested(db) {
        WithoutStaysNested(db, e.id);
        SnapshotIsNested(Without(db, e.id), e, version);
      }
      o := Commit(tx);
    }

    method DeleteEserviceById(e: Id, version: nat)
      requires Uniform(db, Eservices)
      modifies this
      ensures Uniform(db, Eservices) && (Nested(old(db)) ==> Nested(db))
      ensures db == if Current(old(db), Eservices, e, version) then Without(old(db), e) else old(db)
      ensures NeverOlder(old(db), db, Eservices)
    {
      if Current(db, Eservices, e, version) {
        WithoutIsUniform(db, Eservices, e);
        if Nested(db) { WithoutStaysNested(db, e); }
        db := Without(db, e);
      }
    }

    method DeleteDescriptorById(e: Id, d: Id, version: nat) returns (o: Transaction)
      requires Uniform(db, Eservices)
      modifies this
      ensures Does(old(db), db, e, DeleteDescriptor(d), version, o)
      ensures Runs(old(db), db, e, DeleteDescriptor(d), version, o) && NeverOlder(old(db), db, Eservices)
    {
      var tx := if Deletable(db, DescriptorKey(d), version) then WithoutDescriptorRows(db, d) else db;
      o := Finish(tx, e, version, DeleteDescriptor(d));
    }

    method UpsertDocument(e: Id, d: Id, doc: Part, version: nat) returns (o: Transaction)
      requires Uniform(db, Eservices)
      modifies this
      ensures Does(old(db), db, e, Op.UpsertDocument(d, doc), version, o)
      ensures Key(Eservices, "", e, 0) !in old(db) ==> o.Aborted?
      ensures Current(old(db), Eservices, e, version) && Key(Descriptors, "", d, 0) !in old(db) ==> o.Aborted?
      ensures Runs(old(db), db, e, Op.UpsertDocument(d, doc), version, o) && NeverOlder(old(db), db, Eservices)
    {
      if IsStale(db, Eservices, e, version) { return Committed; }
      var k := DocumentKey(doc.id);
      var tx := db - {k};
      if !Exists(db, Eservices, e) || DescriptorKey(d) !in db { return Aborted; }    // the immediate foreign keys
      tx := tx[k := Row(e, Some(d), version, Text(doc.text))];
      assert tx == Statements(db, e, Op.UpsertDocument(d, doc), version);
      o := Finish(tx, e, version, Op.UpsertDocument(d, doc));
    }

    /** Both kinds of interface of the descriptor go; the event carries the document interface. */
    method UpsertInterface(e: Id, d: Id, doc: Part, urls: seq<string>, version: nat) returns (o: Transaction)
      requires Uniform(db, Eservices)
      modifies this
      ensures Does(old(db), db, e, Op.UpsertInterface(d, doc, urls), version, o)
      ensures Key(Eservices, "", e, 0) !in old(db) ==> o.Aborted?
      ensures Current(old(db), Eservices, e, version) && Key(Descriptors, "", d, 0) !in old(db) ==> o.Aborted?
      ensures Runs(old(db), db, e, Op.UpsertInterface(d, doc, urls), version, o) && NeverOlder(old(db), db, Eservices)
    {
      if IsStale(db, Eservices, e, version) { return Committed; }
      var tx := map k | k in db && !(k.table == Interfaces && db[k].parent == Some(d)) :: db[k];
      if !Exists(db, Eservices, e) || DescriptorKey(d) !in db || InterfaceKey(doc.id) in tx { return Aborted; }
      tx := tx[InterfaceKey(doc.id) := Row(e, Some(d), version, Columns(doc.text, [], INTERFACE))];
      tx := SetUrls(tx, d, urls, version);
      o := Finish(tx, e, version, Op.UpsertInterface(d, doc, urls));
    }

    method UpdateDocOrInterface(e: Id, d: Id, doc: Part, urls: seq<string>, version: nat) returns (o: Transaction)
      requires Uniform(db, Eservices)
      modifies this
      ensures Does(old(db), db, e, Op.UpdateDocOrInterface(d, doc, urls), version, o)
      ensures Runs(old(db), db, e, Op.UpdateDocOrInterface(d, doc, urls), version, o)
                && NeverOlder(old(db), db, Eservices)
    {
      var tx, i, k := db, InterfaceKey(doc.id), DocumentKey(doc.id);
      if Deletable(tx, i, version) {
        tx := tx[i := Updated(tx[i], e, d, version, doc.text)];
        tx := SetUrls(tx, d, urls, version);
      }
      if Deletable(tx, k, version) {
        tx := tx[k := Updated(tx[k], e, d, version, doc.text)];
      }
      o := Finish(tx, e, version, Op.UpdateDocOrInterface(d, doc, urls));
    }

    method DeleteDocumentOrInterface(e: Id, d: Id, id: Id, version: nat) returns (o: Transaction)
      requires Uniform(db, Eservices)
      modifies this
      ensures Does(old(db), db, e, DeleteDocOrInterface(d, id), version, o)
      ensures Runs(old(db), db, e, DeleteDocOrInterface(d, id), version, o) && NeverOlder(old(db), db, Eservices)
    {
      var tx := db;
      if Deletable(db, InterfaceKey(id), version) {
        tx := tx - {InterfaceKey(id)};
        tx := SetUrls(tx, d, [], version);
      } else if Deletable(db, DocumentKey(id), version) {
        tx := tx - {DocumentKey(id)};
      }
      o := Finish(tx, e, version, DeleteDocOrInterface(d, id));
    }

    method UpsertDescriptor(e: Id, d: Descriptor, version: nat) returns (o: Transaction)
      requires Uniform(db, Eservices)
      modifies this
      ensures Does(old(db), db, e, Op.UpsertDescriptor(d), version, o)
      ensures Runs(old(db), db, e, Op.UpsertDescriptor(d), version, o) && NeverOlder(old(db), db, Eservices)
    {
      if IsStale(db, Eservices, e, version) { return Committed; }
      if !Exists(db, Eservices, e) { return Aborted; }
      var ok, tx := InsertAll(WithoutDescriptorRows(db, d.id), Rowed(DescriptorParts(d), e, version));
      if !ok { return Aborted; }
      o := Finish(tx, e, version, Op.UpsertDescriptor(d));
    }
  }

  // ---- snapshots ----

  lemma WithoutStaysNested(db: Tables, e: Id)
    requires Nested(db)
    ensures Nested(Without(db, e))
  {
    forall k | k in Without(db, e) ensures NestedAt(Without(db, e), k) { assert NestedAt(db, k); }
  }

  /** Parts that refer to a descriptor come with it, and none is a root. */
  predicate WellPlaced(parts: seq<Stored>, p: Stored) {
    && p.key.table != Eservices
    && (p.content.parent.Some? ==> p.key.table != Descriptors && HasKey(parts, DescriptorKey(p.content.parent.value)))
  }

  ghost predicate AllPlaced(parts: seq<Stored>, start: nat) {
    forall i: nat {:trigger parts[i]} | start <= i < |parts| :: WellPlaced(parts, parts[i])
  }

  lemma StillPlaced(init: seq<Stored>, last: seq<Stored>, p: Stored)
    requires WellPlaced(init, p)
    ensures WellPlaced(init + last, p) && WellPlaced(last + init, p)
  {
    if p.content.parent.Some? {
      var j :| 0 <= j < |init| && init[j].key == DescriptorKey(p.content.parent.value);
      assert (init + last)[j] == init[j] && (last + init)[|last| + j] == init[j];
    }
  }

  lemma ConcatPlaced(init: seq<Stored>, last: seq<Stored>)
    requires AllPlaced(init, 0) && AllPlaced(last, 0)
    ensures AllPlaced(init + last, 0)
  {
    forall i: nat | i < |init + last| ensures WellPlaced(init + last, (init + last)[i]) {
      if i < |init| {
        assert (init + last)[i] == init[i];
        StillPlaced(init, last, init[i]);
      } else {
        assert (init + last)[i] == last[i - |init|];
        StillPlaced(last, init, last[i - |init|]);
      }
    }
  }

  lemma OneDescriptorIsPlaced(d: Descriptor)
    ensures AllPlaced(DescriptorParts(d) + ExtraParts(d), 0)
  {
    var parts := DescriptorParts(d) + ExtraParts(d);
    DescriptorPartsAreOwn(d);
    assert parts[0].key == DescriptorKey(d.id);
    forall i: nat | i < |parts| ensures WellPlaced(parts, parts[i]) {
      if i < |DescriptorParts(d)| {
        assert parts[i] == DescriptorParts(d)[i];
      } else {
        assert parts[i] == ExtraParts(d)[i - |DescriptorParts(d)|];
      }
    }
  }

  lemma {:induction false} DescriptorsArePlaced(ds: seq<Descriptor>)
    ensures AllPlaced(AllDescriptorParts(ds), 0)
  {
    if ds != [] {
      DescriptorsArePlaced(ds[..|ds| - 1]);
      OneDescriptorIsPlaced(ds[|ds| - 1]);
      ConcatPlaced(AllDescriptorParts(ds[..|ds| - 1]), DescriptorParts(ds[|ds| - 1]) + ExtraParts(ds[|ds| - 1]));
    }
  }

  lemma PartsArePlaced(e: Eservice)
    ensures |AllParts(e)| > 0 && AllParts(e)[0] == Stored(Root(e.id), Content(None, Text(e.text)))
    ensures AllPlaced(AllParts(e), 1)
  {
    var own, below := OwnParts(e), AllDescriptorParts(e.descriptors);
    DescriptorsArePlaced(e.descriptors);
    forall i: nat | 1 <= i < |own + below| ensures WellPlaced(own + below, (own + below)[i]) {
      if i < |own| {
        assert (own + below)[i] == own[i];
      } else {
        assert (own + below)[i] == below[i - |own|];
        StillPlaced(below, own, below[i - |own|]);
      }
    }
  }

  lemma SnapshotLeaves(db: Tables, e: Eservice, v: nat)
    requires Insertable(Without(db, e.id), Rowed(AllParts(e), e.id, v))
    ensures var db' := Without(db, e.id) + NewRows(Rowed(AllParts(e), e.id, v));
            Rows(db', e.id) == Contents(AllParts(e)) && OthersSame(db, db', e.id)
  {
    var rest, more := Without(db, e.id), NewRows(Rowed(AllParts(e), e.id, v));
    NewKeys(Rowed(AllParts(e), e.id, v));
    RowedContents(AllParts(e), e.id, v);
    AddLeaves(rest, e.id, more);
    assert Rows(rest, e.id) == map[];
  }

  lemma InsertedReads(rest: Tables, e: Eservice, v: nat)
    requires Insertable(rest, Rowed(AllParts(e), e.id, v))
    ensures ReadsAs(Contents(AllParts(e)), e)
  {
    var parts, news := AllParts(e), Rowed(AllParts(e), e.id, v);
    assert forall i | 0 <= i < |parts| :: news[i].key == parts[i].key;
    SnapshotReads(e);
  }

  lemma NewRowIsPart(e: Eservice, v: nat, k: Key<Table>)
    requires k in NewRows(Rowed(AllParts(e), e.id, v))
    ensures var row := NewRows(Rowed(AllParts(e), e.id, v))[k];
            && row.owner == e.id && row.version == v
            && (if k == Root(e.id) then row.parent.None?
                 else WellPlaced(AllParts(e), Stored(k, Content(row.parent, row.data))))
  {
    var parts, news := AllParts(e), Rowed(AllParts(e), e.id, v);
    NewRowsHold(news);
    PartsArePlaced(e);
    var i :| 0 <= i < |news| && news[i].key == k && news[i].row == NewRows(news)[k];
    assert parts[i] == Stored(k, Content(news[i].row.parent, news[i].row.data));
  }

  lemma SnapshotIsUniform(rest: Tables, e: Eservice, v: nat)
    requires Uniform(rest, Eservices) && Root(e.id) !in rest && Insertable(rest, Rowed(AllParts(e), e.id, v))
    ensures var db := rest + NewRows(Rowed(AllParts(e), e.id, v));
            Uniform(db, Eservices) && Root(e.id) in db && db[Root(e.id)].version == v
  {
    var more := NewRows(Rowed(AllParts(e), e.id, v));
    var db := rest + more;
    PartsArePlaced(e);
    NewKeys(Rowed(AllParts(e), e.id, v));
    assert Rowed(AllParts(e), e.id, v)[0].key == Root(e.id);
    NewRowIsPart(e, v, Root(e.id));
    forall k | k in db ensures Refers(db, Eservices, k) {
      if k in more { NewRowIsPart(e, v, k); } else { assert Refers(rest, Eservices, k); }
    }
  }

  lemma SnapshotIsNested(rest: Tables, e: Eservice, v: nat)
    requires Nested(rest) && Insertable(rest, Rowed(AllParts(e), e.id, v))
    ensures Nested(rest + NewRows(Rowed(AllParts(e), e.id, v)))
  {
    var news := Rowed(AllParts(e), e.id, v);
    var more := NewRows(news);
    var db := rest + more;
    NewKeys(news);
    forall k | k in db ensures NestedAt(db, k) {
      if k in more {
        NewRowIsPart(e, v, k);
        if more[k].parent.Some? {
          var j :| 0 <= j < |AllParts(e)| && AllParts(e)[j].key == DescriptorKey(more[k].parent.value);
          assert news[j].key == DescriptorKey(more[k].parent.value);
          NewRowIsPart(e, v, DescriptorKey(more[k].parent.value));
        }
      } else {
        assert NestedAt(rest, k);
      }
    }
  }
}
