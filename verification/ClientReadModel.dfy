/**
 The SQL read model of clients: four tables whose rows all carry a metadata version. A child row refers to
 its client by id, with deletions cascading, and by id and version, checked when the transaction commits.

 Every writer method is proved against its meaning for one client as a whole: transactions keep the versions
 uniform, so they commit, and a method called with a version below the stored one changes nothing, whether
 it checks the version first or only guards row by row.
 */
module ClientReadModel {
  import opened Basics

  // ---- clients as documents ----

  datatype ClientKind = Consumer | Api

  datatype Profile = Profile(
    consumerId: Id, adminId: Option<Id>, name: string, description: Option<string>, kind: ClientKind, createdAt: int)

  datatype KeyType = RSA | EC | OtherType

  /** `keyType` is what `createJWK` reads off the PEM. */
  datatype KeyData = KeyData(
    userId: Option<Id>, name: string, encodedPem: string, keyType: KeyType, algorithm: string, usage: string,
    createdAt: int)

  datatype Key = Key(kid: Id, data: KeyData)

  datatype Client = Client(id: Id, profile: Profile, users: seq<Id>, purposes: seq<Id>, keys: seq<Key>)

  // ---- tables ----

  /** Primary key of the tables that hold the parts of a client. */
  datatype PartKey = PartKey(clientId: Id, id: Id)

  datatype ClientRow = ClientRow(version: nat, profile: Profile)
  datatype KeyRow = KeyRow(version: nat, data: KeyData)

  datatype Tables = Tables(
    clients: map<Id, ClientRow>,
    users: map<PartKey, nat>,         // a row holds no more than its version
    purposes: map<PartKey, nat>,
    keys: map<PartKey, KeyRow>)

  predicate Refers(db: Tables, k: PartKey, version: nat) {
    k.clientId in db.clients && db.clients[k.clientId].version == version
  }

  /** The deferred foreign keys: every part carries the version of its client. */
  predicate Uniform(db: Tables) {
    && (forall k <- db.users :: Refers(db, k, db.users[k]))
    && (forall k <- db.purposes :: Refers(db, k, db.purposes[k]))
    && (forall k <- db.keys :: Refers(db, k, db.keys[k].version))
  }

  /** `checkMetadataVersion` */
  predicate CheckVersion(db: Tables, clientId: Id, version: nat) {
    clientId in db.clients ==> db.clients[clientId].version <= version
  }

  // ---- statements ----

  function OrNull(s: Option<string>): Option<string> {
    if s == Some("") then None else s
  }

  function ProfileRow(p: Profile): Profile {
    p.(adminId := OrNull(p.adminId), description := OrNull(p.description))
  }

  /** DELETE of a client, with its cascade. */
  function WithoutClient(db: Tables, clientId: Id): Tables {
    Tables(
      db.clients - {clientId},
      map k | k in db.users && k.clientId != clientId :: db.users[k],
      map k | k in db.purposes && k.clientId != clientId :: db.purposes[k],
      map k | k in db.keys && k.clientId != clientId :: db.keys[k])
  }

  datatype Table = ClientTable | UserTable | PurposeTable | KeyTable

  /** UPDATE of the version in one table, for the rows of a client that are not newer. */
  function Bumped(db: Tables, table: Table, clientId: Id, version: nat): Tables {
    match table
    case ClientTable =>
      if clientId in db.clients && db.clients[clientId].version <= version
      then db.(clients := db.clients[clientId := db.clients[clientId].(version := version)])
      else db
    case UserTable =>
      db.(users := map k | k in db.users ::
        if k.clientId == clientId && db.users[k] <= version then version else db.users[k])
    case PurposeTable =>
      db.(purposes := map k | k in db.purposes ::
            if k.clientId == clientId && db.purposes[k] <= version then version else db.purposes[k])
    case KeyTable =>
      db.(keys := map k | k in db.keys ::
            if k.clientId == clientId && db.keys[k].version <= version then db.keys[k].(version := version)
            else db.keys[k])
  }

  // ---- one client as a whole ----

  datatype Whole = Whole(version: nat, profile: Profile, users: set<Id>, purposes: set<Id>, keys: map<Id, KeyData>)

  function PartIds<V>(rows: map<PartKey, V>, clientId: Id): set<Id> {
    set k | k in rows && k.clientId == clientId :: k.id
  }

  function KeysOf(rows: map<PartKey, KeyRow>, clientId: Id): map<Id, KeyData> {
    map id | id in PartIds(rows, clientId) :: rows[PartKey(clientId, id)].data
  }

  function View(db: Tables, clientId: Id): Option<Whole> {
    if clientId !in db.clients then None
    else
      Some(Whole(db.clients[clientId].version, db.clients[clientId].profile,
                 PartIds(db.users, clientId), PartIds(db.purposes, clientId), KeysOf(db.keys, clientId)))
  }

  /** Uniform tables are known by their views: to agree on every client is to agree on every row. */
  lemma ViewsDecide(x: Tables, y: Tables)
    requires Uniform(x) && Uniform(y)
    ensures x == y <==> forall c: Id :: View(x, c) == View(y, c)
  {
    if forall c: Id :: View(x, c) == View(y, c) {
      RowsFollowViews(x, y);
      RowsFollowViews(y, x);
      assert x.clients == y.clients && x.users == y.users && x.purposes == y.purposes && x.keys == y.keys;
    }
  }

  lemma KeyInView(rows: map<PartKey, KeyRow>, k: PartKey)
    ensures k in rows <==> k.id in KeysOf(rows, k.clientId)
    ensures k in rows ==> KeysOf(rows, k.clientId)[k.id] == rows[k].data
  {
    assert PartKey(k.clientId, k.id) == k;
    assert k.id in KeysOf(rows, k.clientId) ==> PartKey(k.clientId, k.id) in rows;
  }

  lemma RowsFollowViews(x: Tables, y: Tables)
    requires Uniform(x) && Uniform(y) && forall c: Id :: View(x, c) == View(y, c)
    ensures forall c <- x.clients :: c in y.clients && y.clients[c] == x.clients[c]
    ensures forall k <- x.users :: k in y.users && y.users[k] == x.users[k]
    ensures forall k <- x.purposes :: k in y.purposes && y.purposes[k] == x.purposes[k]
    ensures forall k <- x.keys :: k in y.keys && y.keys[k] == x.keys[k]
  {
    forall c | c in x.clients ensures c in y.clients && y.clients[c] == x.clients[c] {
      assert View(x, c) == View(y, c);
    }
    forall k | k in x.users ensures k in y.users && y.users[k] == x.users[k] {
      assert View(x, k.clientId) == View(y, k.clientId) && k.id in PartIds(x.users, k.clientId);
    }
    forall k | k in x.purposes ensures k in y.purposes && y.purposes[k] == x.purposes[k] {
      assert View(x, k.clientId) == View(y, k.clientId) && k.id in PartIds(x.purposes, k.clientId);
    }
    forall k | k in x.keys ensures k in y.keys && y.keys[k] == x.keys[k] {
      var c := k.clientId;
      assert View(x, c) == View(y, c);
      KeyInView(x.keys, k);
      assert k.id in KeysOf(y.keys, c) && PartKey(c, k.id) == k;
      KeyInView(y.keys, k);
      assert x.keys[k].version == x.clients[c].version && y.keys[k].version == y.clients[c].version;
    }
  }

  predicate DistinctKids(keys: seq<Key>) {
    forall i, j | 0 <= i < j < |keys| :: keys[i].kid != keys[j].kid
  }

  /** INSERT ... ON CONFLICT DO NOTHING: a kid that is there, or came before, keeps its data. */
  function Merged(keys: map<Id, KeyData>, more: seq<Key>): map<Id, KeyData>
    decreases |more|
  {
    if more == [] then keys
    else
      var key := more[0];
      Merged(if key.kid in keys then keys else keys[key.kid := key.data], more[1..])
  }

  /** What `upsertClient` stores. */
  function Snapshot(c: Client, version: nat): Whole {
    Whole(version, ProfileRow(c.profile), ToSet(c.users), ToSet(c.purposes), Merged(map[], c.keys))
  }

  datatype Op =
    | Upsert(client: Client)
    | Delete
    | AddUser(userId: Id)
    | RemoveUser(userId: Id)
    | AddPurpose(purposeId: Id)
    | RemovePurpose(purposeId: Id)
    | AddKeys(keys: seq<Key>)
    | DeleteKey(kid: Id)
    | MigrateKey(kid: Id, userId: Id)

  predicate IsStale(w: Option<Whole>, version: nat) {
    w.Some? && w.value.version > version
  }

  predicate AddsPart(op: Op) {
    op.AddUser? || op.AddPurpose? || op.AddKeys?
  }

  predicate ChangesPart(op: Op) {
    !op.Upsert? && !op.Delete?
  }

  function Changed(w: Whole, op: Op): Whole
    requires ChangesPart(op)
  {
    match op
    case AddUser(u) => w.(users := w.users + {u})
    case RemoveUser(u) => w.(users := w.users - {u})
    case AddPurpose(p) => w.(purposes := w.purposes + {p})
    case RemovePurpose(p) => w.(purposes := w.purposes - {p})
    case AddKeys(keys) => w.(keys := Merged(w.keys, keys))
    case DeleteKey(kid) => w.(keys := w.keys - {kid})
    case MigrateKey(kid, u) =>
      w.(keys := if kid in w.keys then w.keys[kid := w.keys[kid].(userId := Some(u))] else w.keys)
  }

  /** The meaning of a writer call for its client; `Failed` when the transaction aborts: a repeated purpose
      or kid in a snapshot, or a part added to a missing client. */
  function Apply(w: Option<Whole>, op: Op, version: nat): Result<Option<Whole>> {
    if IsStale(w, version) || op == AddKeys([]) then Ok(w)
    else if op.Upsert? then
      if Distinct(op.client.purposes) && DistinctKids(op.client.keys) then Ok(Some(Snapshot(op.client, version)))
      else Failed
    else if op.Delete? then Ok(None)
    else if w.None? then if AddsPart(op) then Failed else Ok(None)
    else Ok(Some(Changed(w.value, op).(version := version)))
  }

  // ---- the version bump ----

  function BumpedAll(db: Tables, clientId: Id, version: nat): Tables {
    Bumped(Bumped(Bumped(Bumped(db, ClientTable, clientId, version),
                         UserTable, clientId, version), PurposeTable, clientId, version), KeyTable, clientId, version)
  }

  /** Before the bump a part of the client may carry the new version already; all others refer. */
  predicate Ready(db: Tables, clientId: Id, version: nat) {
    && clientId in db.clients && db.clients[clientId].version <= version
    && (forall k <- db.users :: if k.clientId == clientId then db.users[k] <= version else Refers(db, k, db.users[k]))
    && (forall k <- db.purposes ::
         if k.clientId == clientId then db.purposes[k] <= version else Refers(db, k, db.purposes[k]))
    && (forall k <- db.keys ::
         if k.clientId == clientId then db.keys[k].version <= version else Refers(db, k, db.keys[k].version))
  }

  /** Only client `c` has changed. */
  ghost predicate OthersSame(before: Tables, now: Tables, c: Id) {
    forall d: Id | d != c :: View(now, d) == View(before, d)
  }

  lemma SameKeysSameIds<V, W>(rows: map<PartKey, V>, rows': map<PartKey, W>, c: Id)
    requires forall id: Id :: PartKey(c, id) in rows <==> PartKey(c, id) in rows'
    ensures PartIds(rows', c) == PartIds(rows, c)
  {
    forall id | id in PartIds(rows, c) ensures id in PartIds(rows', c) { assert PartKey(c, id) in rows'; }
    forall id | id in PartIds(rows', c) ensures id in PartIds(rows, c) { assert PartKey(c, id) in rows; }
  }

  lemma SameDataSameKeys(rows: map<PartKey, KeyRow>, rows': map<PartKey, KeyRow>, c: Id)
    requires forall id: Id :: PartKey(c, id) in rows <==> PartKey(c, id) in rows'
    requires forall id: Id | PartKey(c, id) in rows :: rows'[PartKey(c, id)].data == rows[PartKey(c, id)].data
    ensures KeysOf(rows', c) == KeysOf(rows, c)
  {
    SameKeysSameIds(rows, rows', c);
  }

  predicate Current(db: Tables, c: Id, version: nat) {
    c in db.clients && db.clients[c].version <= version
  }

  lemma BumpedTableView(db: Tables, table: Table, c: Id, version: nat, d: Id)
    requires Current(db, c, version)
    ensures View(Bumped(db, table, c, version), d) ==
            if table.ClientTable? && d == c then Some(View(db, c).value.(version := version)) else View(db, d)
    ensures Current(Bumped(db, table, c, version), c, version)
  {
    var db' := Bumped(db, table, c, version);
    if table.UserTable? {
      SameKeysSameIds(db.users, db'.users, d);
    } else if table.PurposeTable? {
      SameKeysSameIds(db.purposes, db'.purposes, d);
    } else if table.KeyTable? {
      SameDataSameKeys(db.keys, db'.keys, d);
    }
  }

  /** The bump changes nothing but the version of the whole. */
  lemma BumpedView(db: Tables, c: Id, version: nat, d: Id)
    requires Current(db, c, version)
    ensures View(BumpedAll(db, c, version), d) ==
            if d == c then Some(View(db, c).value.(version := version)) else View(db, d)
  {
    var db1 := Bumped(db, ClientTable, c, version);
    var db2 := Bumped(db1, UserTable, c, version);
    var db3 := Bumped(db2, PurposeTable, c, version);
    BumpedTableView(db, ClientTable, c, version, d);
    BumpedTableView(db1, UserTable, c, version, d);
    BumpedTableView(db2, PurposeTable, c, version, d);
    BumpedTableView(db3, KeyTable, c, version, d);
  }

  lemma BumpMakesUniform(db: Tables, c: Id, version: nat)
    requires Ready(db, c, version)
    ensures Uniform(BumpedAll(db, c, version))
  {
  }

  lemma StaleBumpIsNoOp(db: Tables, c: Id, version: nat)
    requires Uniform(db) && (c in db.clients ==> db.clients[c].version > version)
    ensures BumpedAll(db, c, version) == db
  {
  }

  // ---- parts of a client ----

  function InsertKeys(rows: map<PartKey, KeyRow>, c: Id, keys: seq<Key>, version: nat): map<PartKey, KeyRow>
    decreases |keys|
  {
    if keys == [] then rows
    else
      var k := PartKey(c, keys[0].kid);
      InsertKeys(if k in rows then rows else rows[k := KeyRow(version, keys[0].data)], c, keys[1..], version)
  }

  function DeletePart(rows: map<PartKey, nat>, key: PartKey, version: nat): map<PartKey, nat> {
    map k | k in rows && !(k == key && rows[k] <= version) :: rows[k]
  }

  /** The statements of a method that changes parts, before the bump. */
  function Statements(db: Tables, c: Id, op: Op, version: nat): Tables
    requires ChangesPart(op)
  {
    match op
    case AddUser(u) =>
      var k := PartKey(c, u);
      db.(users := if k in db.users then db.users else db.users[k := version])
    case RemoveUser(u) => db.(users := DeletePart(db.users, PartKey(c, u), version))
    case AddPurpose(p) =>
      var k := PartKey(c, p);
      db.(purposes := if k in db.purposes then db.purposes else db.purposes[k := version])
    case RemovePurpose(p) => db.(purposes := DeletePart(db.purposes, PartKey(c, p), version))
    case AddKeys(keys) => db.(keys := InsertKeys(db.keys, c, keys, version))
    case DeleteKey(kid) =>
      db.(keys := map k | k in db.keys && !(k == PartKey(c, kid) && db.keys[k].version <= version) :: db.keys[k])
    case MigrateKey(kid, u) =>
      var k := PartKey(c, kid);
      db.(keys := if k in db.keys && db.keys[k].version <= version
                  then db.keys[k := db.keys[k].(data := db.keys[k].data.(userId := Some(u)))] else db.keys)
  }

  lemma PartInserted(rows: map<PartKey, nat>, key: PartKey, version: nat, d: Id)
    ensures PartIds(if key in rows then rows else rows[key := version], d) ==
            if d == key.clientId then PartIds(rows, d) + {key.id} else PartIds(rows, d)
  {
    var rows' := if key in rows then rows else rows[key := version];
    forall id | id in PartIds(rows, d) ensures id in PartIds(rows', d) { assert PartKey(d, id) in rows'; }
    if d == key.clientId { assert key in rows'; }
  }

  lemma PartDeleted(rows: map<PartKey, nat>, key: PartKey, version: nat, d: Id)
    requires key in rows ==> rows[key] <= version
    ensures PartIds(DeletePart(rows, key, version), d) ==
            if d == key.clientId then PartIds(rows, d) - {key.id} else PartIds(rows, d)
  {
    var rows' := DeletePart(rows, key, version);
    forall id | id in PartIds(rows, d) && PartKey(d, id) != key ensures id in PartIds(rows', d) {
      assert PartKey(d, id) in rows';
    }
  }

  lemma KeyInserted(rows: map<PartKey, KeyRow>, key: PartKey, row: KeyRow, d: Id)
    ensures KeysOf(rows[key := row], d) ==
            if d == key.clientId then KeysOf(rows, d)[key.id := row.data] else KeysOf(rows, d)
  {
    var rows' := rows[key := row];
    forall id | id in PartIds(rows, d) ensures id in PartIds(rows', d) { assert PartKey(d, id) in rows'; }
    if d == key.clientId { assert key in rows'; }
  }

  lemma KeyDeleted(rows: map<PartKey, KeyRow>, key: PartKey, d: Id)
    ensures KeysOf(rows - {key}, d) == if d == key.clientId then KeysOf(rows, d) - {key.id} else KeysOf(rows, d)
  {
    var rows' := rows - {key};
    forall id | id in PartIds(rows, d) && PartKey(d, id) != key ensures id in PartIds(rows', d) {
      assert PartKey(d, id) in rows';
    }
  }

  /** Keys that come with a kid that is there, or came before, are skipped; the others are added. */
  lemma {:induction false} InsertedKeys(rows: map<PartKey, KeyRow>, c: Id, keys: seq<Key>, version: nat, d: Id)
    ensures KeysOf(InsertKeys(rows, c, keys, version), d) ==
            if d == c then Merged(KeysOf(rows, c), keys) else KeysOf(rows, d)
    decreases |keys|
  {
    if keys != [] {
      var k := PartKey(c, keys[0].kid);
      if k in rows {
        assert keys[0].kid in KeysOf(rows, c);
      } else {
        KeyInserted(rows, k, KeyRow(version, keys[0].data), d);
        assert keys[0].kid !in KeysOf(rows, c);
      }
      InsertedKeys(if k in rows then rows else rows[k := KeyRow(version, keys[0].data)], c, keys[1..], version, d);
    }
  }

  lemma {:induction false} InsertedRows(rows: map<PartKey, KeyRow>, c: Id, keys: seq<Key>, version: nat)
    ensures var rows' := InsertKeys(rows, c, keys, version);
            && rows.Keys <= rows'.Keys
            && forall k <- rows' ::
                 if k in rows then rows'[k] == rows[k] else k.clientId == c && rows'[k].version == version
    decreases |keys|
  {
    if keys != [] {
      var k := PartKey(c, keys[0].kid);
      InsertedRows(if k in rows then rows else rows[k := KeyRow(version, keys[0].data)], c, keys[1..], version);
    }
  }

  lemma StatementsReady(db: Tables, c: Id, op: Op, version: nat)
    requires Uniform(db) && Current(db, c, version) && ChangesPart(op)
    ensures Ready(Statements(db, c, op, version), c, version)
  {
    if op.AddKeys? { InsertedRows(db.keys, c, op.keys, version); }
  }

  lemma StatementsView(db: Tables, c: Id, op: Op, version: nat, d: Id)
    requires Uniform(db) && Current(db, c, version) && ChangesPart(op)
    ensures View(Statements(db, c, op, version), d) ==
            if d == c then Some(Changed(View(db, c).value, op)) else View(db, d)
  {
    match op
    case AddUser(u) => PartInserted(db.users, PartKey(c, u), version, d);
    case RemoveUser(u) => PartDeleted(db.users, PartKey(c, u), version, d);
    case AddPurpose(p) => PartInserted(db.purposes, PartKey(c, p), version, d);
    case RemovePurpose(p) => PartDeleted(db.purposes, PartKey(c, p), version, d);
    case _ => KeyStatementsView(db, c, op, version, d);
  }

  lemma KeyStatementsView(db: Tables, c: Id, op: Op, version: nat, d: Id)
    requires Uniform(db) && Current(db, c, version) && (op.AddKeys? || op.DeleteKey? || op.MigrateKey?)
    ensures View(Statements(db, c, op, version), d) ==
            if d == c then Some(Changed(View(db, c).value, op)) else View(db, d)
  {
    match op
    case AddKeys(keys) => InsertedKeys(db.keys, c, keys, version, d);
    case DeleteKey(kid) =>
      KeyDeleted(db.keys, PartKey(c, kid), d);
      assert Statements(db, c, op, version).keys == db.keys - {PartKey(c, kid)};
    case MigrateKey(kid, u) => MigrationView(db, c, kid, u, version, d);
  }

  lemma MigrationView(db: Tables, c: Id, kid: Id, u: Id, version: nat, d: Id)
    requires Uniform(db) && Current(db, c, version)
    ensures View(Statements(db, c, MigrateKey(kid, u), version), d) ==
            if d == c then Some(Changed(View(db, c).value, MigrateKey(kid, u))) else View(db, d)
  {
    var k := PartKey(c, kid);
    KeyInView(db.keys, k);
    if k in db.keys {
      KeyInserted(db.keys, k, db.keys[k].(data := db.keys[k].data.(userId := Some(u))), d);
    }
  }

  /** A method that changes parts, as a whole. */
  lemma ChangeIsApply(db: Tables, c: Id, op: Op, version: nat)
    requires Uniform(db) && Current(db, c, version) && ChangesPart(op)
    ensures var db' := BumpedAll(Statements(db, c, op, version), c, version);
            && Uniform(db') && View(db', c) == Some(Changed(View(db, c).value, op).(version := version))
            && OthersSame(db, db', c)
  {
    var tx := Statements(db, c, op, version);
    StatementsReady(db, c, op, version);
    BumpMakesUniform(tx, c, version);
    forall d: Id ensures View(BumpedAll(tx, c, version), d) ==
                         if d == c then Some(Changed(View(db, c).value, op).(version := version)) else View(db, d)
    {
      StatementsView(db, c, op, version, d);
      StatementsView(db, c, op, version, c);
      BumpedView(tx, c, version, d);
    }
  }

  /** Without an up-front check the guards of the rows themselves make a stale call harmless. */
  lemma StaleStatementsAreNoOp(db: Tables, c: Id, op: Op, version: nat)
    requires Uniform(db) && !Current(db, c, version) && ChangesPart(op) && !AddsPart(op)
    ensures Statements(db, c, op, version) == db
    ensures BumpedAll(db, c, version) == db
  {
    StaleBumpIsNoOp(db, c, version);
  }

  // ---- snapshots ----

  /** Rows of client `c` may have come, all at the version; the others are as before. */
  predicate Extends(rows: map<PartKey, nat>, rows': map<PartKey, nat>, c: Id, version: nat) {
    && (forall k <- rows' :: if k in rows then rows'[k] == rows[k] else k.clientId == c && rows'[k] == version)
    && rows.Keys <= rows'.Keys
  }

  lemma ExtensionsKeepOthers(rows: map<PartKey, nat>, rows': map<PartKey, nat>, c: Id, version: nat, d: Id)
    requires Extends(rows, rows', c, version) && d != c
    ensures PartIds(rows', d) == PartIds(rows, d)
  {
    SameKeysSameIds(rows, rows', d);
  }

  /** One INSERT per user; a repeated user is skipped. */
  method InsertUsers(rows: map<PartKey, nat>, c: Id, users: seq<Id>, version: nat) returns (rows': map<PartKey, nat>)
    ensures Extends(rows, rows', c, version) && PartIds(rows', c) == PartIds(rows, c) + ToSet(users)
  {
    rows' := rows;
    for i := 0 to |users|
      invariant Extends(rows, rows', c, version) && PartIds(rows', c) == PartIds(rows, c) + ToSet(users[..i])
    {
      var k := PartKey(c, users[i]);
      PartInserted(rows', k, version, c);
      assert ToSet(users[..i + 1]) == ToSet(users[..i]) + {users[i]};
      rows' := if k in rows' then rows' else rows'[k := version];
    }
    assert users[..|users|] == users;
  }

  /** One INSERT per purpose; a repeated purpose violates the primary key. */
  method InsertPurposes(rows: map<PartKey, nat>, c: Id, purposes: seq<Id>, version: nat)
    returns (ok: bool, rows': map<PartKey, nat>)
    requires PartIds(rows, c) == {}
    ensures ok <==> Distinct(purposes)
    ensures ok ==> Extends(rows, rows', c, version) && PartIds(rows', c) == ToSet(purposes)
  {
    rows' := rows;
    for i := 0 to |purposes|
      invariant Extends(rows, rows', c, version) && PartIds(rows', c) == ToSet(purposes[..i])
      invariant Distinct(purposes[..i])
    {
      var k := PartKey(c, purposes[i]);
      if k in rows' {
        assert k.id in PartIds(rows', c) && k.id in purposes[..i];
        var j :| 0 <= j < i && purposes[j] == purposes[i];
        return false, rows;
      }
      assert k.id !in PartIds(rows', c);
      assert forall j | 0 <= j < i :: purposes[j] in ToSet(purposes[..i]);
      PartInserted(rows', k, version, c);
      assert ToSet(purposes[..i + 1]) == ToSet(purposes[..i]) + {purposes[i]};
      rows' := rows'[k := version];
    }
    assert purposes[..|purposes|] == purposes;
    return true, rows';
  }

  /** One INSERT per key; a repeated kid violates the primary key. */
  method InsertNewKeys(rows: map<PartKey, KeyRow>, c: Id, keys: seq<Key>, version: nat)
    returns (ok: bool, rows': map<PartKey, KeyRow>)
    requires PartIds(rows, c) == {}
    ensures ok <==> DistinctKids(keys)
    ensures ok ==> rows' == InsertKeys(rows, c, keys, version)
  {
    rows' := rows;
    ghost var seen: set<Id> := {};
    assert keys[0..] == keys;
    forall kid: Id ensures PartKey(c, kid) !in rows { assert kid !in PartIds(rows, c); }
    for i := 0 to |keys|
      invariant InsertKeys(rows', c, keys[i..], version) == InsertKeys(rows, c, keys, version)
      invariant forall kid: Id :: PartKey(c, kid) in rows' <==> kid in seen
      invariant seen == set j | 0 <= j < i :: keys[j].kid
      invariant DistinctKids(keys[..i])
    {
      var k := PartKey(c, keys[i].kid);
      if k in rows' {
        var j :| 0 <= j < i && keys[j].kid == keys[i].kid;
        return false, rows;
      }
      assert keys[i..][1..] == keys[i + 1..];
      rows' := rows'[k := KeyRow(version, keys[i].data)];
      seen := seen + {keys[i].kid};
    }
    assert keys[..|keys|] == keys;
    return true, rows';
  }

  lemma WithoutClientView(db: Tables, c: Id)
    requires Uniform(db)
    ensures Uniform(WithoutClient(db, c)) && View(WithoutClient(db, c), c) == None
              && OthersSame(db, WithoutClient(db, c), c)
  {
    var db' := WithoutClient(db, c);
    forall d: Id | d != c ensures View(db', d) == View(db, d) {
      SameKeysSameIds(db.users, db'.users, d);
      SameKeysSameIds(db.purposes, db'.purposes, d);
      SameDataSameKeys(db.keys, db'.keys, d);
    }
  }

  /** The tables that `upsertClient` commits, from those that its deletion and its client row leave. */
  predicate IsUpsert(base: Tables, tx: Tables, client: Client, version: nat) {
    var c := client.id;
    && tx == base.(users := tx.users, purposes := tx.purposes, keys := InsertKeys(base.keys, c, client.keys, version))
    && Extends(base.users, tx.users, c, version) && PartIds(tx.users, c) == ToSet(client.users)
    && Extends(base.purposes, tx.purposes, c, version) && PartIds(tx.purposes, c) == ToSet(client.purposes)
  }

  function Fresh(db: Tables, c: Id, row: ClientRow): Tables {
    var tx := WithoutClient(db, c);
    tx.(clients := tx.clients[c := row])
  }

  /** The parts that are left belong to other clients and carry their versions. */
  predicate FreshParts(db: Tables, c: Id, base: Tables) {
    && (forall k <- base.users :: k.clientId != c && Refers(db, k, base.users[k]))
    && (forall k <- base.purposes :: k.clientId != c && Refers(db, k, base.purposes[k]))
    && (forall k <- base.keys :: k.clientId != c && Refers(db, k, base.keys[k].version))
  }

  lemma UpsertIsUniform(db: Tables, tx: Tables, client: Client, version: nat, row: ClientRow)
    requires Uniform(db) && row.version == version && IsUpsert(Fresh(db, client.id, row), tx, client, version)
    ensures Uniform(tx)
  {
    var base := Fresh(db, client.id, row);
    assert FreshParts(db, client.id, base);
    InsertedRows(base.keys, client.id, client.keys, version);
    forall k | k in tx.keys ensures Refers(tx, k, tx.keys[k].version) {}
  }

  lemma UpsertedView(db: Tables, tx: Tables, client: Client, version: nat, d: Id)
    requires var row := ClientRow(version, ProfileRow(client.profile));
             Uniform(db) && IsUpsert(Fresh(db, client.id, row), tx, client, version)
    ensures View(tx, d) == if d == client.id then Some(Snapshot(client, version)) else View(db, d)
  {
    var base := Fresh(db, client.id, ClientRow(version, ProfileRow(client.profile)));
    InsertedKeys(base.keys, client.id, client.keys, version, d);
    if d == client.id {
      assert KeysOf(base.keys, d) == map[];
    } else {
      WithoutClientView(db, client.id);
      assert View(WithoutClient(db, client.id), d) == View(db, d);
      ExtensionsKeepOthers(base.users, tx.users, client.id, version, d);
      ExtensionsKeepOthers(base.purposes, tx.purposes, client.id, version, d);
    }
  }

  // ---- the writer ----

  /** What every method promises: committed exactly when its meaning is defined, and then with that meaning for
      its client and none for the others; stale calls change no table at all. */
  ghost predicate Does(before: Tables, now: Tables, c: Id, op: Op, version: nat, o: Transaction) {
    && Uniform(now)
    && (o.Committed? <==> Apply(View(before, c), op, version).Ok?)
    && (o.Committed? ==> View(now, c) == Apply(View(before, c), op, version).value && OthersSame(before, now, c))
    && (o.Aborted? || IsStale(View(before, c), version) ==> now == before)
  }

  /** The statements and the bump of a method that changes parts are what the operation means. */
  lemma ChangeDoes(db: Tables, c: Id, op: Op, version: nat)
    requires Uniform(db) && ChangesPart(op) && op != AddKeys([])
    requires AddsPart(op) ==> Current(db, c, version)
    ensures Does(db, BumpedAll(Statements(db, c, op, version), c, version), c, op, version, Committed)
  {
    if Current(db, c, version) {
      ChangeIsApply(db, c, op, version);
      assert Apply(View(db, c), op, version) == Ok(Some(Changed(View(db, c).value, op).(version := version)));
    } else {
      StaleStatementsAreNoOp(db, c, op, version);
      assert Apply(View(db, c), op, version) == Ok(View(db, c));
    }
  }

  class ReadModel {
    var db: Tables

    constructor ()
      ensures Uniform(db) && forall c: Id :: View(db, c) == None
    {
      db := Tables(map[], map[], map[], map[]);
    }

    /** COMMIT: the deferred foreign keys are checked. */
    method Commit(tx: Tables) returns (o: Transaction)
      modifies this
      ensures o.Committed? <==> Uniform(tx)
      ensures db == if o.Committed? then tx else old(db)
    {
      if !Uniform(tx) { return Aborted; }
      db := tx;
      return Committed;
    }

    /** `updateMetadataVersionInClientTables` */
    method BumpVersions(before: Tables, c: Id, version: nat) returns (tx: Tables)
      ensures tx == BumpedAll(before, c, version)
    {
      tx := before;
      var tables := [ClientTable, UserTable, PurposeTable, KeyTable];
      for i := 0 to |tables|
        invariant i == 0 ==> tx == before
        invariant i == 1 ==> tx == Bumped(before, ClientTable, c, version)
        invariant i == 2 ==> tx == Bumped(Bumped(before, ClientTable, c, version), UserTable, c, version)
        invariant i == 3 ==>
                    tx == Bumped(Bumped(Bumped(before, ClientTable, c, version), UserTable, c, version),
                                 PurposeTable, c, version)
        invariant i == 4 ==> tx == BumpedAll(before, c, version)
      {
        tx := Bumped(tx, tables[i], c, version);
      }
    }

    /** The statements of a method that changes parts, its bump and its commit. */
    method Change(c: Id, op: Op, version: nat) returns (o: Transaction)
      requires Uniform(db) && ChangesPart(op) && op != Op.AddKeys([])
      requires AddsPart(op) ==> Current(db, c, version)
      modifies this
      ensures Does(old(db), db, c, op, version, o)
    {
      ChangeDoes(db, c, op, version);
      var tx := BumpVersions(Statements(db, c, op, version), c, version);
      o := Commit(tx);
    }

    /** Methods that add a part check the version first; the insertion needs the client's row. */
    method Add(c: Id, op: Op, version: nat) returns (o: Transaction)
      requires Uniform(db) && AddsPart(op) && op != Op.AddKeys([])
      modifies this
      ensures Does(old(db), db, c, op, version, o)
    {
      if !CheckVersion(db, c, version) { return Committed; }
      if c !in db.clients { return Aborted; }
      o := Change(c, op, version);
    }

    method UpsertClient(client: Client, version: nat) returns (o: Transaction)
      requires Uniform(db)
      modifies this
      ensures Does(old(db), db, client.id, Upsert(client), version, o)
    {
      var c := client.id;
      if !CheckVersion(db, c, version) { return Committed; }
      var row := ClientRow(version, ProfileRow(client.profile));
      var tx := Fresh(db, c, row);
      assert PartIds(tx.users, c) == {} && PartIds(tx.purposes, c) == {} && PartIds(tx.keys, c) == {};
      var users := InsertUsers(tx.users, c, client.users, version);
      var distinct, purposes := InsertPurposes(tx.purposes, c, client.purposes, version);
      if !distinct { return Aborted; }
      var unique, keys := InsertNewKeys(tx.keys, c, client.keys, version);
      if !unique { return Aborted; }
      tx := tx.(users := users, purposes := purposes, keys := keys);
      UpsertIsUniform(db, tx, client, version, row);
      forall d: Id ensures View(tx, d) == if d == c then Some(Snapshot(client, version)) else View(db, d) {
        UpsertedView(db, tx, client, version, d);
      }
      o := Commit(tx);
    }

    method DeleteClientById(c: Id, version: nat) returns (o: Transaction)
      requires Uniform(db)
      modifies this
      ensures Does(old(db), db, c, Delete, version, o)
    {
      if Current(db, c, version) {
        WithoutClientView(db, c);
        db := WithoutClient(db, c);
      }
      o := Committed;
    }

    method AddUser(c: Id, userId: Id, version: nat) returns (o: Transaction)
      requires Uniform(db)
      modifies this
      ensures Does(old(db), db, c, Op.AddUser(userId), version, o)
    {
      o := Add(c, Op.AddUser(userId), version);
    }

    method RemoveUser(c: Id, userId: Id, version: nat) returns (o: Transaction)
      requires Uniform(db)
      modifies this
      ensures Does(old(db), db, c, Op.RemoveUser(userId), version, o)
    {
      o := Change(c, Op.RemoveUser(userId), version);
    }

    method AddPurpose(c: Id, purposeId: Id, version: nat) returns (o: Transaction)
      requires Uniform(db)
      modifies this
      ensures Does(old(db), db, c, Op.AddPurpose(purposeId), version, o)
    {
      o := Add(c, Op.AddPurpose(purposeId), version);
    }

    method RemovePurpose(c: Id, purposeId: Id, version: nat) returns (o: Transaction)
      requires Uniform(db)
      modifies this
      ensures Does(old(db), db, c, Op.RemovePurpose(purposeId), version, o)
    {
      o := Change(c, Op.RemovePurpose(purposeId), version);
    }

    method AddKeys(c: Id, keys: seq<Key>, version: nat) returns (o: Transaction)
      requires Uniform(db)
      modifies this
      ensures Does(old(db), db, c, Op.AddKeys(keys), version, o)
    {
      if keys == [] { return Committed; }
      o := Add(c, Op.AddKeys(keys), version);
    }

    method DeleteKey(c: Id, kid: Id, version: nat) returns (o: Transaction)
      requires Uniform(db)
      modifies this
      ensures Does(old(db), db, c, Op.DeleteKey(kid), version, o)
    {
      o := Change(c, Op.DeleteKey(kid), version);
    }

    method MigrateKeyRelationshipToUser(c: Id, kid: Id, userId: Id, version: nat) returns (o: Transaction)
      requires Uniform(db)
      modifies this
      ensures Does(old(db), db, c, MigrateKey(kid, userId), version, o)
    {
      o := Change(c, MigrateKey(kid, userId), version);
    }
  }
}
