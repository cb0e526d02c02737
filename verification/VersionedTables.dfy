/**
 The tables of one aggregate kind, as SQL read models keep them: a root table, tables of parts, and on every
 row the aggregate it belongs to and a metadata version. The rows of all tables are kept in one map whose keys
 name the table. A part refers to its root by id, with deletions cascading, and by id and version, checked when
 the transaction commits.
 */
module VersionedTables {
  import opened Basics

  /** Primary keys: `scope` is empty when the id alone is the key; `n` tells rows with equal ids apart. */
  datatype Key<T> = Key(table: T, scope: Id, id: Id, n: nat)

  /** `owner` is the aggregate; `parent` the part of it that the row also refers to, if any. */
  datatype Row<D> = Row(owner: Id, parent: Option<Id>, version: nat, data: D)

  type Db<T(==), D> = map<Key<T>, Row<D>>

  function RootKey<T>(root: T, id: Id): Key<T> {
    Key(root, "", id, 0)
  }

  predicate Refers<T(==), D>(db: Db<T, D>, root: T, k: Key<T>)
    requires k in db
  {
    var r := RootKey(root, db[k].owner);
    r in db && db[r].version == db[k].version && (k.table == root ==> k == r)
  }

  /** The deferred foreign keys: every row carries the version of its root. */
  predicate Uniform<T(==), D>(db: Db<T, D>, root: T) {
    forall k <- db :: Refers(db, root, k)
  }

  predicate Exists<T(==), D>(db: Db<T, D>, root: T, id: Id) {
    RootKey(root, id) in db
  }

  /** The aggregate is there and not newer: its row passes `checkMetadataVersion` and the row guards alike. */
  predicate Current<T(==), D>(db: Db<T, D>, root: T, id: Id, version: nat) {
    RootKey(root, id) in db && db[RootKey(root, id)].version <= version
  }

  predicate IsStale<T(==), D>(db: Db<T, D>, root: T, id: Id, version: nat) {
    RootKey(root, id) in db && db[RootKey(root, id)].version > version
  }

  // ---- an aggregate as a whole ----

  datatype Content<D> = Content(parent: Option<Id>, data: D)

  /** Everything stored about an aggregate but its version. */
  function Rows<T(==), D>(db: Db<T, D>, id: Id): map<Key<T>, Content<D>> {
    map k | k in db && db[k].owner == id :: Content(db[k].parent, db[k].data)
  }

  ghost predicate OthersSame<T(!new), D(!new)>(before: Db<T, D>, now: Db<T, D>, id: Id) {
    forall k: Key<T> | (k in before && before[k].owner != id) || (k in now && now[k].owner != id) ::
      k in before && k in now && now[k] == before[k]
  }

  // ---- versions along a run ----

  /** No aggregate that stays gets an older version. */
  ghost predicate NeverOlder<T(!new), D(!new)>(before: Db<T, D>, now: Db<T, D>, root: T) {
    forall id: Id {:trigger RootKey(root, id)} :: Exists(before, root, id) && Exists(now, root, id) ==>
      before[RootKey(root, id)].version <= now[RootKey(root, id)].version
  }

  predicate ExistsAt<T(==), D>(states: seq<Db<T, D>>, root: T, id: Id, i: nat)
    requires i < |states|
  {
    Exists(states[i], root, id)
  }

  ghost predicate StepAt<T(!new), D(!new)>(states: seq<Db<T, D>>, root: T, i: nat)
    requires i + 1 < |states|
  {
    NeverOlder(states[i], states[i + 1], root)
  }

  /** Over a run of transactions of which none makes a version older, the version of an aggregate never decreases while
      the aggregate exists. */
  lemma {:induction false} VersionNeverDecreases<T(!new), D(!new)>(states: seq<Db<T, D>>, root: T, id: Id, n: nat,
                                                                   m: nat)
    requires n <= m < |states|
    requires forall i: nat {:trigger StepAt(states, root, i)} | i + 1 < |states| :: StepAt(states, root, i)
    requires forall i: nat {:trigger ExistsAt(states, root, id, i)} | n <= i <= m :: ExistsAt(states, root, id, i)
    ensures Exists(states[n], root, id) && Exists(states[m], root, id)
    ensures states[n][RootKey(root, id)].version <= states[m][RootKey(root, id)].version
    decreases m
  {
    assert ExistsAt(states, root, id, n) && ExistsAt(states, root, id, m);
    if n < m {
      assert ExistsAt(states, root, id, m - 1) && StepAt(states, root, m - 1);
      VersionNeverDecreases(states, root, id, n, m - 1);
    }
  }

  lemma OneChangeIsNeverOlder<T(!new), D(!new)>(before: Db<T, D>, now: Db<T, D>, root: T, id: Id)
    requires Uniform(before, root) && Uniform(now, root) && OthersSame(before, now, id)
    requires Exists(before, root, id) && Exists(now, root, id) ==>
               before[RootKey(root, id)].version <= now[RootKey(root, id)].version
    ensures NeverOlder(before, now, root)
  {
    forall x: Id | x != id && Exists(before, root, x) && Exists(now, root, x)
      ensures before[RootKey(root, x)].version <= now[RootKey(root, x)].version
    {
      assert Refers(before, root, RootKey(root, x));
    }
  }

  /** Roots come from before, and a bump never makes one older. */
  lemma BumpIsNeverOlder<T(!new), D(!new)>(before: Db<T, D>, tx: Db<T, D>, root: T, tables: set<T>, id: Id,
                                           version: nat)
    requires forall x: Id :: Exists(tx, root, x) && Exists(before, root, x) ==>
               tx[RootKey(root, x)] == before[RootKey(root, x)]
    ensures NeverOlder(before, Bumped(tx, tables, id, version), root)
  {
  }

  // ---- statements ----

  function Without<T(==), D>(db: Db<T, D>, id: Id): Db<T, D> {
    map k | k in db && db[k].owner != id :: db[k]
  }

  /** UPDATE of the version in one table. */
  function BumpedTable<T(==), D>(db: Db<T, D>, table: T, id: Id, version: nat): Db<T, D> {
    map k | k in db ::
      if k.table == table && db[k].owner == id && db[k].version <= version then db[k].(version := version) else db[k]
  }

  function Bumped<T(==), D>(db: Db<T, D>, tables: set<T>, id: Id, version: nat): Db<T, D> {
    map k | k in db ::
      if k.table in tables && db[k].owner == id && db[k].version <= version then db[k].(version := version) else db[k]
  }

  /** The loop over the tables that a writer bumps. */
  method Bump<T(==), D>(before: Db<T, D>, tables: seq<T>, id: Id, version: nat) returns (tx: Db<T, D>)
    ensures tx == Bumped(before, ToSet(tables), id, version)
  {
    tx := before;
    for i := 0 to |tables|
      invariant tx == Bumped(before, ToSet(tables[..i]), id, version)
    {
      tx := BumpedTable(tx, tables[i], id, version);
    }
    assert tables[..|tables|] == tables;
  }

  /** Before the bump some rows of the aggregate may be newer than its root; the other aggregates' refer. */
  ghost predicate Ready<T(!new), D(!new)>(db: Db<T, D>, root: T, id: Id, version: nat) {
    && Current(db, root, id, version) && db[RootKey(root, id)].owner == id
    && forall k <- db ::
         if db[k].owner == id then db[k].version <= version && (k.table == root ==> k == RootKey(root, id))
         else Refers(db, root, k)
  }

  /** The rows that a bump over these tables leaves behind. */
  ghost predicate LeavesNone<T(!new), D(!new)>(db: Db<T, D>, tables: set<T>, id: Id, version: nat) {
    forall k <- db | db[k].owner == id && k.table !in tables :: db[k].version == version
  }

  /** A transaction that bumps commits exactly when every row of the tables that the bump omits already has
      the new version. */
  lemma BumpCommitsIff<T(!new), D(!new)>(db: Db<T, D>, root: T, tables: set<T>, id: Id, version: nat)
    requires Ready(db, root, id, version) && root in tables
    ensures Uniform(Bumped(db, tables, id, version), root) <==> LeavesNone(db, tables, id, version)
  {
    var db' := Bumped(db, tables, id, version);
    var r := RootKey(root, id);
    assert r in db' && db'[r].version == version;
    if Uniform(db', root) {
      forall k | k in db && db[k].owner == id && k.table !in tables ensures db[k].version == version {
        assert k in db' && Refers(db', root, k);
      }
    }
    if LeavesNone(db, tables, id, version) {
      forall k | k in db' ensures Refers(db', root, k) {
        if db[k].owner != id {
          assert Refers(db, root, k);
          var o := RootKey(root, db[k].owner);
          assert o in db' && db[o].owner != id;
        }
      }
    }
  }

  lemma BumpKeepsRows<T(!new), D(!new)>(db: Db<T, D>, tables: set<T>, id: Id, version: nat)
    ensures Rows(Bumped(db, tables, id, version), id) == Rows(db, id)
    ensures OthersSame(db, Bumped(db, tables, id, version), id)
  {
  }

  lemma StaleBumpIsNoOp<T(!new), D(!new)>(db: Db<T, D>, root: T, tables: set<T>, id: Id, version: nat)
    requires Uniform(db, root) && !Current(db, root, id, version)
    ensures Bumped(db, tables, id, version) == db
  {
    forall k | k in db && db[k].owner == id ensures db[k].version > version {
      assert Refers(db, root, k);
    }
  }

  lemma WithoutIsUniform<T(!new), D(!new)>(db: Db<T, D>, root: T, id: Id)
    requires Uniform(db, root)
    ensures Uniform(Without(db, id), root) && Rows(Without(db, id), id) == map[] && OthersSame(db, Without(db, id), id)
    ensures RootKey(root, id) !in Without(db, id)
  {
    var db' := Without(db, id);
    forall k | k in db' ensures Refers(db', root, k) {
      assert Refers(db, root, k);
      var o := RootKey(root, db[k].owner);
      assert Refers(db, root, o);
    }
    if RootKey(root, id) in db { assert Refers(db, root, RootKey(root, id)); }
  }

  function Put<T(==), D>(db: Db<T, D>, k: Key<T>, row: Option<Row<D>>): Db<T, D> {
    if row.Some? then db[k := row.value] else db - {k}
  }

  predicate IsForeign<T(==), D>(db: Db<T, D>, k: Key<T>, id: Id) {
    k in db && db[k].owner != id
  }

  // ---- transactions that change parts ----

  /** The aggregate has rows in tables that the bump omits. */
  ghost predicate HasOmitted<T(!new), D(!new)>(db: Db<T, D>, tables: set<T>, id: Id) {
    exists k :: k in db && db[k].owner == id && k.table !in tables
  }

  predicate SameRow<T(==), D(==)>(db: Db<T, D>, tx: Db<T, D>, k: Key<T>) {
    k in db && k in tx && tx[k] == db[k]
  }

  /** Before its bump a transaction has changed no more than rows of the aggregate, short of its root, and
      none in the tables that the bump omits, where it may have deleted some. */
  ghost predicate TouchesOwn<T(!new), D(!new)>(db: Db<T, D>, tx: Db<T, D>, root: T, tables: set<T>, id: Id,
                                               version: nat) {
    && (forall k <- tx :: SameRow(db, tx, k)
          || (tx[k].owner == id && tx[k].version <= version && k.table != root && k.table in tables
               && !IsForeign(db, k, id)))
    && (forall k <- db :: k in tx || (db[k].owner == id && k.table != root))
  }

  /** Such a transaction commits exactly when the tables that the bump omits are left with nothing of the
      aggregate, or its version does not change. */
  lemma TouchAndBump<T(!new), D(!new)>(db: Db<T, D>, tx: Db<T, D>, root: T, tables: set<T>, id: Id, version: nat)
    requires Uniform(db, root) && Current(db, root, id, version) && root in tables
    requires TouchesOwn(db, tx, root, tables, id, version)
    ensures var db' := Bumped(tx, tables, id, version);
            && (Uniform(db', root) <==> !HasOmitted(tx, tables, id) || db[RootKey(root, id)].version == version)
            && Rows(db', id) == Rows(tx, id) && OthersSame(db, db', id)
            && Current(db', root, id, version) && db'[RootKey(root, id)].version == version
  {
    TouchIsReady(db, tx, root, tables, id, version);
    BumpCommitsIff(tx, root, tables, id, version);
    BumpKeepsRows(tx, tables, id, version);
    forall k | k in tx && tx[k].owner == id && k.table !in tables
      ensures tx[k].version == db[RootKey(root, id)].version
    {
      assert SameRow(db, tx, k) && Refers(db, root, k);
    }
  }

  lemma TouchIsReady<T(!new), D(!new)>(db: Db<T, D>, tx: Db<T, D>, root: T, tables: set<T>, id: Id, version: nat)
    requires Uniform(db, root) && Current(db, root, id, version) && TouchesOwn(db, tx, root, tables, id, version)
    ensures Ready(tx, root, id, version) && OthersSame(db, tx, id)
    ensures RootKey(root, id) in tx && tx[RootKey(root, id)] == db[RootKey(root, id)]
  {
    var r := RootKey(root, id);
    assert Refers(db, root, r) && SameRow(db, tx, r);
    forall k | k in tx && tx[k].owner != id ensures Refers(tx, root, k) {
      assert SameRow(db, tx, k) && Refers(db, root, k);
      var o := RootKey(root, db[k].owner);
      assert Refers(db, root, o) && SameRow(db, tx, o);
    }
    forall k | k in tx && tx[k].owner == id ensures tx[k].version <= version && (k.table == root ==> k == r) {
      if SameRow(db, tx, k) { assert Refers(db, root, k); }
    }
  }

  /** Uniform tables are known by the contents and the version of the aggregate that changed. */
  lemma SameContentsSameTables<T(!new), D(!new)>(before: Db<T, D>, x: Db<T, D>, y: Db<T, D>, root: T, id: Id)
    requires Uniform(x, root) && Uniform(y, root) && OthersSame(before, x, id) && OthersSame(before, y, id)
    requires Exists(x, root, id) && Exists(y, root, id) && x[RootKey(root, id)].version == y[RootKey(root, id)].version
    requires Rows(x, id) == Rows(y, id)
    ensures x == y
  {
    forall k: Key<T> | k in x ensures k in y && x[k] == y[k] {
      SameRowOf(before, x, y, root, id, k);
    }
    forall k: Key<T> | k in y ensures k in x {
      SameRowOf(before, y, x, root, id, k);
    }
  }

  lemma SameRowOf<T(!new), D(!new)>(before: Db<T, D>, x: Db<T, D>, y: Db<T, D>, root: T, id: Id, k: Key<T>)
    requires Uniform(x, root) && Uniform(y, root) && OthersSame(before, x, id) && OthersSame(before, y, id)
    requires Exists(x, root, id) && Exists(y, root, id) && x[RootKey(root, id)].version == y[RootKey(root, id)].version
    requires Rows(x, id) == Rows(y, id) && k in x
    ensures k in y && x[k] == y[k]
  {
    if x[k].owner == id {
      assert k in Rows(x, id) && Rows(x, id)[k] == Content(x[k].parent, x[k].data);
      assert Refers(x, root, k) && Refers(y, root, k);
    }
  }

  // ---- insertions ----

  datatype New<T, D> = New(key: Key<T>, row: Row<D>)

  predicate DistinctKeys<T(==), D>(news: seq<New<T, D>>) {
    forall i, j | 0 <= i < j < |news| :: news[i].key != news[j].key
  }

  function NewRows<T(==), D>(news: seq<New<T, D>>): Db<T, D> {
    if news == [] then map[]
    else NewRows(news[..|news| - 1])[news[|news| - 1].key := news[|news| - 1].row]
  }

  lemma {:induction false} NewRowsHold<T(!new), D(!new)>(news: seq<New<T, D>>)
    ensures forall k: Key<T> :: k in NewRows(news) <==> exists i :: 0 <= i < |news| && news[i].key == k
    ensures DistinctKeys(news) ==>
              forall i | 0 <= i < |news| :: news[i].key in NewRows(news) && NewRows(news)[news[i].key] == news[i].row
    ensures forall k <- NewRows(news) ::
              exists i :: 0 <= i < |news| && news[i].key == k && news[i].row == NewRows(news)[k]
  {
    if news != [] {
      var init, last := news[..|news| - 1], news[|news| - 1];
      NewRowsHold(init);
      assert forall i | 0 <= i < |init| :: init[i] == news[i];
      assert NewRows(news) == NewRows(init)[last.key := last.row];
      forall k | k in NewRows(news)
        ensures exists i :: 0 <= i < |news| && news[i].key == k && news[i].row == NewRows(news)[k]
      {
        if k == last.key {
          assert news[|news| - 1].key == k;
        } else {
          var i :| 0 <= i < |init| && init[i].key == k && init[i].row == NewRows(init)[k];
          assert news[i].key == k;
        }
      }
      forall i | 0 <= i < |news| ensures news[i].key in NewRows(news) {
        if i < |init| { assert init[i].key in NewRows(init); }
      }
    }
  }

  function KeysOf<T(==), D>(news: seq<New<T, D>>): set<Key<T>> {
    set i | 0 <= i < |news| :: news[i].key
  }

  lemma NewKeys<T(!new), D(!new)>(news: seq<New<T, D>>)
    ensures NewRows(news).Keys == KeysOf(news)
  {
    NewRowsHold(news);
  }

  /** No row of the list meets a row of the table or another one of the list. */
  predicate Insertable<T(==), D>(before: Db<T, D>, news: seq<New<T, D>>) {
    DistinctKeys(news) && KeysOf(news) !! before.Keys
  }

  lemma NextRows<T(!new), D(!new)>(news: seq<New<T, D>>, i: nat)
    requires i < |news|
    ensures NewRows(news[..i + 1]) == NewRows(news[..i])[news[i].key := news[i].row]
    ensures KeysOf(news[..i + 1]) == KeysOf(news[..i]) + {news[i].key}
  {
    var news' := news[..i + 1];
    assert news'[..i] == news[..i] && news'[i] == news[i];
    NewKeys(news[..i]);
    NewKeys(news');
  }

  lemma NextDistinct<T(!new), D(!new)>(news: seq<New<T, D>>, i: nat)
    requires i < |news| && DistinctKeys(news[..i])
    ensures DistinctKeys(news[..i + 1]) <==> news[i].key !in KeysOf(news[..i])
    ensures DistinctKeys(news) ==> DistinctKeys(news[..i + 1])
  {
    assert forall j | 0 <= j < i :: news[..i][j] == news[j] == news[..i + 1][j];
    if news[i].key in KeysOf(news[..i]) {
      var j :| 0 <= j < i && news[..i][j].key == news[i].key;
      assert news[..i + 1][j].key == news[..i + 1][i].key;
    }
  }

  lemma NextRow<T(!new), D(!new)>(before: Db<T, D>, news: seq<New<T, D>>, i: nat)
    requires i < |news| && Insertable(before, news[..i])
    ensures before + NewRows(news[..i + 1]) == (before + NewRows(news[..i]))[news[i].key := news[i].row]
    ensures Insertable(before, news[..i + 1]) <==> news[i].key !in before + NewRows(news[..i])
    ensures Insertable(before, news) ==> Insertable(before, news[..i + 1])
  {
    NextRows(news, i);
    NextDistinct(news, i);
    NewKeys(news[..i]);
    assert news[i].key in KeysOf(news);
  }

  /** One INSERT per row; a repeated primary key aborts. */
  method InsertAll<T(!new, ==), D(!new)>(before: Db<T, D>, news: seq<New<T, D>>) returns (ok: bool, tx: Db<T, D>)
    ensures ok <==> Insertable(before, news)
    ensures ok ==> tx == before + NewRows(news)
  {
    tx := before;
    for i := 0 to |news|
      invariant tx == before + NewRows(news[..i]) && Insertable(before, news[..i])
    {
      NextRow(before, news, i);
      if news[i].key in tx { return false, before; }
      tx := tx[news[i].key := news[i].row];
    }
    assert news[..|news|] == news;
    return true, tx;
  }
}
