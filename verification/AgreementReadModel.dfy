/**
 The SQL read model of agreements. Snapshots replace all rows of an agreement; document methods change one row
 and bump the version of the others. The bump omits signed contracts, so such a method commits exactly when
 the agreement has none or its version does not change; when it commits, versions are uniform again.
 */
module AgreementReadModel {
  import opened Basics
  import opened VersionedTables

  datatype Table = Agreements | Stamps | Attributes | Documents | Contracts | SignedContracts

  /** `text` stands for the columns that no statement looks at. */
  datatype Columns = Columns(id: Id, text: string)

  datatype Part = Part(id: Id, text: string)

  datatype Agreement = Agreement(
    id: Id, text: string, stamps: seq<Part>, attributes: seq<Part>, documents: seq<Part>,
    contract: Option<Part>, signedContract: Option<Part>)

  type Tables = Db<Table, Columns>

  const BUMPED := [Agreements, Stamps, Attributes, Documents, Contracts]

  function Root(id: Id): Key<Table> { RootKey(Agreements, id) }

  function DocumentKey(id: Id): Key<Table> { Key(Documents, "", id, 0) }

  /** An agreement has at most one contract. */
  function ContractKey(agreementId: Id): Key<Table> { Key(Contracts, agreementId, "", 0) }

  function RowOf(agreementId: Id, p: Part, version: nat): Row<Columns> {
    Row(agreementId, None, version, Columns(p.id, p.text))
  }

  function PartKeyOf(table: Table, agreementId: Id, p: Part): Key<Table> {
    match table
    case Documents => DocumentKey(p.id)
    case Contracts | SignedContracts => Key(table, agreementId, "", 0)
    case _ => Key(table, agreementId, p.id, 0)
  }

  function PartRows(table: Table, agreementId: Id, parts: seq<Part>, version: nat): seq<New<Table, Columns>> {
    seq(|parts|, i requires 0 <= i < |parts| =>
      New(PartKeyOf(table, agreementId, parts[i]), RowOf(agreementId, parts[i], version)))
  }

  /** The parts of a snapshot, in the order in which they are inserted after the root. */
  function Parts(a: Agreement, version: nat): seq<New<Table, Columns>> {
    PartRows(Stamps, a.id, a.stamps, version) + PartRows(Attributes, a.id, a.attributes, version)
    + PartRows(Documents, a.id, a.documents, version)
    + PartRows(Contracts, a.id, ToSeq(a.contract), version)
    + PartRows(SignedContracts, a.id, ToSeq(a.signedContract), version)
  }

  function SnapshotRows(a: Agreement, version: nat): seq<New<Table, Columns>> {
    [New(Root(a.id), Row(a.id, None, version, Columns(a.id, a.text)))] + Parts(a, version)
  }

  // ---- reading rows back ----

  predicate IsPartRow(table: Table, agreementId: Id, p: Part, k: Key<Table>, data: Columns) {
    k == Key(table, agreementId, p.id, 0) && data == Columns(p.id, p.text)
  }

  /** A row of the agreement's snapshot, told from its table, key and columns. */
  predicate IsRow(a: Agreement, version: nat, k: Key<Table>, row: Row<Columns>) {
    && row.owner == a.id && row.parent.None? && row.version == version
    && match k.table
       case Agreements => k == Key(Agreements, "", a.id, 0) && row.data == Columns(a.id, a.text)
       case Stamps => exists x <- a.stamps :: IsPartRow(Stamps, a.id, x, k, row.data)
       case Attributes => exists x <- a.attributes :: IsPartRow(Attributes, a.id, x, k, row.data)
       case Documents => exists x <- a.documents ::
         k == Key(Documents, "", x.id, 0) && row.data == Columns(x.id, x.text)
       case Contracts => a.contract == Some(Part(row.data.id, row.data.text)) && k == Key(Contracts, a.id, "", 0)
       case SignedContracts =>
         a.signedContract == Some(Part(row.data.id, row.data.text)) && k == Key(SignedContracts, a.id, "", 0)
  }

  /** The rows of the agreement are those of its snapshot, one for each of its fields, and the others stay. */
  ghost predicate ReadsAs(before: Tables, now: Tables, a: Agreement, version: nat) {
    forall k: Key<Table>, row: Row<Columns> ::
      Lookup(now, k) == Some(row) <==>
        IsRow(a, version, k, row) || (Lookup(before, k) == Some(row) && row.owner != a.id)
  }

  lemma PartRowsRead(table: Table, id: Id, parts: seq<Part>, version: nat, k: Key<Table>, row: Row<Columns>)
    ensures New(k, row) in PartRows(table, id, parts, version) <==>
            exists x <- parts :: k == PartKeyOf(table, id, x) && row == RowOf(id, x, version)
  {
    if x :| x in parts && k == PartKeyOf(table, id, x) && row == RowOf(id, x, version) {
      var i :| 0 <= i < |parts| && parts[i] == x;
      assert PartRows(table, id, parts, version)[i] == New(k, row);
    }
  }

  lemma OneRowRead(table: Table, id: Id, part: Option<Part>, version: nat, k: Key<Table>, row: Row<Columns>)
    ensures New(k, row) in PartRows(table, id, ToSeq(part), version) <==>
            part.Some? && k == PartKeyOf(table, id, part.value) && row == RowOf(id, part.value, version)
  {
    PartRowsRead(table, id, ToSeq(part), version, k, row);
    if part.Some? { assert ToSeq(part)[0] == part.value; }
  }

  lemma SnapshotRowsRead(a: Agreement, version: nat, k: Key<Table>, row: Row<Columns>)
    ensures New(k, row) in SnapshotRows(a, version) <==> IsRow(a, version, k, row)
  {
    var n := New(k, row);
    PartRowsRead(Stamps, a.id, a.stamps, version, k, row);
    PartRowsRead(Attributes, a.id, a.attributes, version, k, row);
    PartRowsRead(Documents, a.id, a.documents, version, k, row);
    OneRowRead(Contracts, a.id, a.contract, version, k, row);
    OneRowRead(SignedContracts, a.id, a.signedContract, version, k, row);
    assert n in SnapshotRows(a, version) <==>
             || n == New(Root(a.id), Row(a.id, None, version, Columns(a.id, a.text)))
             || n in PartRows(Stamps, a.id, a.stamps, version) || n in PartRows(Attributes, a.id, a.attributes, version)
             || n in PartRows(Documents, a.id, a.documents, version)
             || n in PartRows(Contracts, a.id, ToSeq(a.contract), version)
             || n in PartRows(SignedContracts, a.id, ToSeq(a.signedContract), version);
  }

  lemma InsertedRows(news: seq<New<Table, Columns>>, k: Key<Table>, row: Row<Columns>)
    requires DistinctKeys(news)
    ensures Lookup(NewRows(news), k) == Some(row) <==> New(k, row) in news
  {
    NewRowsHold(news);
    if New(k, row) in news {
      var i :| 0 <= i < |news| && news[i] == New(k, row);
      assert NewRows(news)[news[i].key] == news[i].row;
    }
  }

  lemma SnapshotReads(before: Tables, a: Agreement, version: nat)
    requires Insertable(Without(before, a.id), SnapshotRows(a, version))
    ensures ReadsAs(before, Without(before, a.id) + NewRows(SnapshotRows(a, version)), a, version)
  {
    var news := SnapshotRows(a, version);
    var now := Without(before, a.id) + NewRows(news);
    NewKeys(news);
    forall k: Key<Table>, row: Row<Columns>
      ensures Lookup(now, k) == Some(row) <==>
              IsRow(a, version, k, row) || (Lookup(before, k) == Some(row) && row.owner != a.id)
    {
      SnapshotRowsRead(a, version, k, row);
      InsertedRows(news, k, row);
    }
  }

  /** The primary keys of all but two tables name the agreement. */
  predicate NamesOwner(k: Key<Table>, owner: Id) {
    k.table == Agreements || k.table == Documents || k.scope == owner
  }

  predicate IsOwn(n: New<Table, Columns>, agreementId: Id, version: nat) {
    n.row.owner == agreementId && n.row.version == version && NamesOwner(n.key, agreementId)
  }

  lemma SnapshotIsOwn(a: Agreement, version: nat)
    ensures var news := SnapshotRows(a, version);
            forall i | 0 <= i < |news| :: IsOwn(news[i], a.id, version) && (i == 0 <==> news[i].key.table == Agreements)
  {
    forall table: Table, parts: seq<Part>, i | 0 <= i < |PartRows(table, a.id, parts, version)| && table != Agreements
      ensures IsOwn(PartRows(table, a.id, parts, version)[i], a.id, version)
      ensures PartRows(table, a.id, parts, version)[i].key.table == table
    {
    }
  }

  /** A signed contract is stored for the agreement. */
  ghost predicate HasSigned(db: Tables, id: Id) {
    exists k :: k in db && db[k].owner == id && k.table == SignedContracts
  }

  lemma OmittedIsSigned(db: Tables, id: Id)
    ensures HasOmitted(db, ToSet(BUMPED), id) <==> HasSigned(db, id)
  {
    assert forall t: Table :: t in ToSet(BUMPED) <==> t != SignedContracts by {
      assert BUMPED[0] == Agreements && BUMPED[1] == Stamps && BUMPED[2] == Attributes && BUMPED[3] == Documents
               && BUMPED[4] == Contracts;
    }
  }

  /** What a method that changes one row `k` promises: `after` is the row's content, if it stays. */
  ghost predicate ChangesRow(before: Tables, now: Tables, id: Id, version: nat, k: Key<Table>, after: Option<Columns>,
                             o: Transaction)
    requires Current(before, Agreements, id, version)
  {
    && (o.Committed? <==> !HasSigned(before, id) || before[Root(id)].version == version)
    && (o.Committed? ==>
          && Current(now, Agreements, id, version) && now[Root(id)].version == version
          && Rows(now, id) == (if after.Some? then Rows(before, id)[k := Content(None, after.value)]
               else Rows(before, id) - {k})
          && OthersSame(before, now, id))
  }

  /** What a method that changes row `k` does to the tables, whoever the row belongs to. */
  ghost predicate Writes(before: Tables, now: Tables, k: Key<Table>, row: Option<Row<Columns>>, id: Id, version: nat,
                         o: Transaction)
  {
    var tx := Bumped(Put(before, k, row), ToSet(BUMPED), id, version);
    && (o.Committed? <==> Uniform(tx, Agreements))
    && now == if o.Committed? then tx else before
  }

  lemma WritesAreNeverOlder(before: Tables, k: Key<Table>, row: Option<Row<Columns>>, id: Id, version: nat)
    requires k.table != Agreements
    ensures NeverOlder(before, Bumped(Put(before, k, row), ToSet(BUMPED), id, version), Agreements)
  {
    BumpIsNeverOlder(before, Put(before, k, row), Agreements, ToSet(BUMPED), id, version);
  }

  lemma SnapshotIsNeverOlder(db: Tables, a: Agreement, version: nat)
    requires !IsStale(db, Agreements, a.id, version)
    ensures NeverOlder(db, Without(db, a.id) + NewRows(SnapshotRows(a, version)), Agreements)
  {
    var news := SnapshotRows(a, version);
    SnapshotIsOwn(a, version);
    NewRowsHold(news);
  }

  /** Rows of the tables whose primary key names the agreement belong to it. */
  ghost predicate OwnerInKey(db: Tables) {
    forall k {:trigger NamesOwner(k, db[k].owner)} | k in db :: NamesOwner(k, db[k].owner)
  }

  ghost predicate Valid(db: Tables) {
    Uniform(db, Agreements) && OwnerInKey(db)
  }

  class AgreementWriter {
    var db: Tables

    constructor ()
      ensures db == map[] && Valid(db)
    {
      db := map[];
    }

    /** COMMIT: the deferred foreign keys are checked. */
    method Commit(tx: Tables) returns (o: Transaction)
      modifies this
      ensures o.Committed? <==> Uniform(tx, Agreements)
      ensures db == if o.Committed? then tx else old(db)
    {
      if !Uniform(tx, Agreements) { return Aborted; }
      db := tx;
      return Committed;
    }

    method UpsertAgreement(a: Agreement, version: nat) returns (o: Transaction)
      requires Valid(db)
      modifies this
      ensures Valid(db)
      ensures o.Aborted? || IsStale(old(db), Agreements, a.id, version) ==> db == old(db)
      ensures !IsStale(old(db), Agreements, a.id, version) ==>
                (o.Committed? <==> Insertable(Without(old(db), a.id), SnapshotRows(a, version)))
      ensures !IsStale(old(db), Agreements, a.id, version) && o.Committed? ==>
                && db == Without(old(db), a.id) + NewRows(SnapshotRows(a, version))
                && ReadsAs(old(db), db, a, version)
      ensures NeverOlder(old(db), db, Agreements)
    {
      if IsStale(db, Agreements, a.id, version) { return Committed; }
      var ok, tx := InsertAll(Without(db, a.id), SnapshotRows(a, version));
      if !ok { return Aborted; }
      SnapshotIsUniform(db, a, version);
      SnapshotNamesOwner(db, a, version);
      SnapshotIsNeverOlder(db, a, version);
      SnapshotReads(db, a, version);
      o := Commit(tx);
    }

    method DeleteAgreementById(id: Id, version: nat)
      requires Valid(db)
      modifies this
      ensures Valid(db)
      ensures db == if Current(old(db), Agreements, id, version) then Without(old(db), id) else old(db)
      ensures NeverOlder(old(db), db, Agreements)
    {
      if Current(db, Agreements, id, version) {
        WithoutIsUniform(db, Agreements, id);
        db := Without(db, id);
      }
    }

    method UpsertConsumerDocument(doc: Part, agreementId: Id, version: nat) returns (o: Transaction)
      requires Valid(db)
      modifies this
      ensures Valid(db)
      ensures o.Aborted? || IsStale(old(db), Agreements, agreementId, version) ==> db == old(db)
      ensures !Exists(old(db), Agreements, agreementId) ==> o.Aborted?
      ensures Current(old(db), Agreements, agreementId, version)
                && !IsForeign(old(db), Key(Documents, "", doc.id, 0), agreementId) ==>
                ChangesRow(old(db), db, agreementId, version, Key(Documents, "", doc.id, 0),
                  Some(Columns(doc.id, doc.text)), o)
      ensures Current(old(db), Agreements, agreementId, version) ==>
                Writes(old(db), db, Key(Documents, "", doc.id, 0),
                       Some(Row(agreementId, None, version, Columns(doc.id, doc.text))), agreementId, version, o)
      ensures NeverOlder(old(db), db, Agreements)
    {
      if IsStale(db, Agreements, agreementId, version) { return Committed; }
      if !Exists(db, Agreements, agreementId) { return Aborted; }    // the immediate foreign key
      var k, row := DocumentKey(doc.id), RowOf(agreementId, doc, version);
      var tx := db - {k};
      tx := tx[k := row];
      assert tx == Put(db, k, Some(row));
      tx := Bump(tx, BUMPED, agreementId, version);
      ChangeNamesOwner(db, agreementId, version, k, Some(row));
      if !IsForeign(db, k, agreementId) {
        ChangeRow(db, agreementId, version, k, Some(row));
      }
      o := Commit(tx);
    }

    /** No up-front check: the row is deleted, and the others bumped, if they are not newer. */
    method DeleteConsumerDocument(agreementId: Id, documentId: Id, version: nat) returns (o: Transaction)
      requires Valid(db)
      modifies this
      ensures Valid(db)
      ensures o.Aborted? ==> db == old(db)
      ensures !Current(old(db), Agreements, agreementId, version)
                && !IsForeign(old(db), Key(Documents, "", documentId, 0), agreementId) ==>
                o.Committed? && db == old(db)
      ensures Current(old(db), Agreements, agreementId, version)
                && !IsForeign(old(db), Key(Documents, "", documentId, 0), agreementId) ==>
                ChangesRow(old(db), db, agreementId, version, Key(Documents, "", documentId, 0), None, o)
      ensures var k := Key(Documents, "", documentId, 0);
              var row := Lookup(old(db), k);
              Writes(old(db), db, k, if row.Some? && row.value.version <= version then None
                else row, agreementId, version, o)
      ensures NeverOlder(old(db), db, Agreements)
    {
      var k := DocumentKey(documentId);
      var tx := if k in db && db[k].version <= version then db - {k} else db;
      ghost var row := if k in db && db[k].version <= version then None else Lookup(db, k);
      assert tx == Put(db, k, row);
      WritesAreNeverOlder(db, k, row, agreementId, version);
      ChangeNamesOwner(db, agreementId, version, k, None);
      if !IsForeign(db, k, agreementId) { DeletionDoes(db, agreementId, version, k); }
      tx := Bump(tx, BUMPED, agreementId, version);
      o := Commit(tx);
    }

    /** The old contract is deleted if it has the same id; another one violates the uniqueness of contracts. */
    method UpsertContractDocument(contract: Part, agreementId: Id, version: nat) returns (o: Transaction)
      requires Valid(db)
      modifies this
      ensures Valid(db)
      ensures o.Aborted? || IsStale(old(db), Agreements, agreementId, version) ==> db == old(db)
      ensures var k := Key(Contracts, agreementId, "", 0);
              !Exists(old(db), Agreements, agreementId)
              || (!IsStale(old(db), Agreements, agreementId, version) && k in old(db)
                   && old(db)[k].data.id != contract.id)
              ==> o.Aborted?
      ensures var k := Key(Contracts, agreementId, "", 0);
              Current(old(db), Agreements, agreementId, version)
                && (k in old(db) ==> old(db)[k].data.id == contract.id) ==>
                ChangesRow(old(db), db, agreementId, version, k, Some(Columns(contract.id, contract.text)), o)
      ensures NeverOlder(old(db), db, Agreements)
    {
      if IsStale(db, Agreements, agreementId, version) { return Committed; }
      if !Exists(db, Agreements, agreementId) { return Aborted; }
      var k, row := ContractKey(agreementId), RowOf(agreementId, contract, version);
      var tx := if k in db && db[k].data.id == contract.id then db - {k} else db;
      if k in tx { return Aborted; }
      tx := tx[k := row];
      assert tx == Put(db, k, Some(row));
      assert !IsForeign(db, k, agreementId) by {
        if k in db { assert NamesOwner(k, db[k].owner); }
      }
      ChangeRow(db, agreementId, version, k, Some(row));
      ChangeNamesOwner(db, agreementId, version, k, Some(row));
      tx := Bump(tx, BUMPED, agreementId, version);
      o := Commit(tx);
    }
  }

  /** The guarded deletion of an own document, and the bump: a change of one row, or nothing. */
  lemma DeletionDoes(db: Tables, id: Id, version: nat, k: Key<Table>)
    requires Uniform(db, Agreements) && !IsForeign(db, k, id) && k.table == Documents
    ensures var row := if k in db && db[k].version <= version then None else Lookup(db, k);
            var tx := Bumped(Put(db, k, row), ToSet(BUMPED), id, version);
            if Current(db, Agreements, id, version)
            then ChangesRow(db, tx, id, version, k, None, if Uniform(tx, Agreements) then Committed else Aborted)
            else tx == db
  {
    if Current(db, Agreements, id, version) {
      OwnRowIsNotNewer(db, id, version, k);
      assert k !in db ==> Put(db, k, None) == db;
      ChangeRow(db, id, version, k, None);
    } else {
      StaleRowStays(db, id, version, k);
      assert Put(db, k, Lookup(db, k)) == db;
      StaleBumpIsNoOp(db, Agreements, ToSet(BUMPED), id, version);
    }
  }

  lemma ChangeRow(db: Tables, id: Id, version: nat, k: Key<Table>, row: Option<Row<Columns>>)
    requires Uniform(db, Agreements) && Current(db, Agreements, id, version) && !IsForeign(db, k, id)
    requires k.table == Documents || k.table == Contracts
    requires row.Some? ==> row.value.owner == id && row.value.version == version && row.value.parent.None?
    ensures var tx := Bumped(Put(db, k, row), ToSet(BUMPED), id, version);
            ChangesRow(db, tx, id, version, k, if row.Some? then Some(row.value.data) else None,
                       if Uniform(tx, Agreements) then Committed else Aborted)
  {
    var tx := Put(db, k, row);
    PutTouchesOwn(db, id, version, k, row);
    TouchAndBump(db, tx, Agreements, ToSet(BUMPED), id, version);
    OmittedIsSigned(tx, id);
    PutKeepsSigned(db, id, k, row);
    PutRows(db, id, k, row);
  }

  lemma PutTouchesOwn(db: Tables, id: Id, version: nat, k: Key<Table>, row: Option<Row<Columns>>)
    requires (k.table == Documents || k.table == Contracts) && !IsForeign(db, k, id)
    requires row.Some? ==> row.value.owner == id && row.value.version == version
    ensures TouchesOwn(db, Put(db, k, row), Agreements, ToSet(BUMPED), id, version)
    ensures Agreements in ToSet(BUMPED)
  {
    assert BUMPED[0] == Agreements && BUMPED[3] == Documents && BUMPED[4] == Contracts;
  }

  lemma PutKeepsSigned(db: Tables, id: Id, k: Key<Table>, row: Option<Row<Columns>>)
    requires k.table == Documents || k.table == Contracts
    ensures HasSigned(Put(db, k, row), id) <==> HasSigned(db, id)
  {
    var tx := Put(db, k, row);
    forall x: Key<Table> | x.table == SignedContracts ensures Lookup(tx, x) == Lookup(db, x) {}
    if HasSigned(db, id) {
      var x :| x in db && db[x].owner == id && x.table == SignedContracts;
      assert Lookup(tx, x) == Lookup(db, x);
    }
    if HasSigned(tx, id) {
      var x :| x in tx && tx[x].owner == id && x.table == SignedContracts;
      assert Lookup(tx, x) == Lookup(db, x);
    }
  }

  lemma PutRows(db: Tables, id: Id, k: Key<Table>, row: Option<Row<Columns>>)
    requires !IsForeign(db, k, id) && (row.Some? ==> row.value.owner == id && row.value.parent.None?)
    ensures Rows(Put(db, k, row), id) ==
            if row.Some? then Rows(db, id)[k := Content(None, row.value.data)] else Rows(db, id) - {k}
  {
  }

  lemma OwnRowIsNotNewer(db: Tables, id: Id, version: nat, k: Key<Table>)
    requires Uniform(db, Agreements) && Current(db, Agreements, id, version) && !IsForeign(db, k, id)
    ensures k in db ==> db[k].version <= version
  {
    if k in db { assert Refers(db, Agreements, k); }
  }

  lemma StaleRowStays(db: Tables, id: Id, version: nat, k: Key<Table>)
    requires Uniform(db, Agreements) && !Current(db, Agreements, id, version) && !IsForeign(db, k, id)
    ensures k in db ==> db[k].version > version
  {
    if k in db { assert Refers(db, Agreements, k); }
  }

  lemma SnapshotIsUniform(db: Tables, a: Agreement, version: nat)
    requires Uniform(db, Agreements) && Insertable(Without(db, a.id), SnapshotRows(a, version))
    ensures Uniform(Without(db, a.id) + NewRows(SnapshotRows(a, version)), Agreements)
  {
    var news, rest := SnapshotRows(a, version), Without(db, a.id);
    var db' := rest + NewRows(news);
    WithoutIsUniform(db, Agreements, a.id);
    SnapshotIsOwn(a, version);
    NewRowsHold(news);
    NewKeys(news);
    assert news[0].key == Root(a.id);
    forall k | k in db' ensures Refers(db', Agreements, k) {
      if k in NewRows(news) {
        var i :| 0 <= i < |news| && news[i].key == k && news[i].row == NewRows(news)[k];
      } else {
        assert Refers(rest, Agreements, k);
        assert db[RootKey(Agreements, rest[k].owner)].owner != a.id;
      }
    }
  }

  lemma ChangeNamesOwner(db: Tables, id: Id, version: nat, k: Key<Table>, row: Option<Row<Columns>>)
    requires OwnerInKey(db) && (row.Some? ==> NamesOwner(k, row.value.owner))
    ensures OwnerInKey(Bumped(Put(db, k, row), ToSet(BUMPED), id, version))
    ensures OwnerInKey(Bumped(db, ToSet(BUMPED), id, version))
  {
  }

  lemma SnapshotNamesOwner(db: Tables, a: Agreement, version: nat)
    requires OwnerInKey(db)
    ensures OwnerInKey(Without(db, a.id) + NewRows(SnapshotRows(a, version)))
  {
    var news := SnapshotRows(a, version);
    SnapshotIsOwn(a, version);
    NewRowsHold(news);
    forall k | k in NewRows(news) ensures NamesOwner(k, NewRows(news)[k].owner) {
      var i :| 0 <= i < |news| && news[i].key == k && news[i].row == NewRows(news)[k];
    }
  }
}
