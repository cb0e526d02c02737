/**
 V1 messages are deltas. A stream of them leaves in the tables exactly the rows that one snapshot of the
 folded client would leave, at the version of the last message that carried anything to store.
 */
module DeltaStream {
  import opened Basics
  import opened ClientReadModel
  import opened Delivery
  import opened ClientStream

  // ---- the folded client ----

  function AddId(ids: seq<Id>, id: Id): seq<Id> {
    if id in ids then ids else ids + [id]
  }

  function RemoveId(ids: seq<Id>, id: Id): seq<Id> {
    if ids == [] then []
    else if ids[0] == id then RemoveId(ids[1..], id)
    else [ids[0]] + RemoveId(ids[1..], id)
  }

  function AddNew(keys: seq<Key>, more: seq<Key>): seq<Key>
    decreases |more|
  {
    if more == [] then keys
    else AddNew(if HasKid(keys, more[0].kid) then keys else keys + [more[0]], more[1..])
  }

  function RemoveKid(keys: seq<Key>, kid: Id): seq<Key> {
    if keys == [] then []
    else if keys[0].kid == kid then RemoveKid(keys[1..], kid)
    else [keys[0]] + RemoveKid(keys[1..], kid)
  }

  function SetUser(keys: seq<Key>, kid: Id, userId: Id): seq<Key> {
    seq(|keys|, i requires 0 <= i < |keys| =>
      if keys[i].kid == kid then keys[i].(data := keys[i].data.(userId := Some(userId))) else keys[i])
  }

  function Fold(c: Option<Client>, event: EventV1): Option<Client> {
    match event
    case ClientAdded(client) => Some(client)
    case ClientDeleted(_) => None
    case _ => if c.None? then None else Some(FoldPart(c.value, event))
  }

  function FoldPart(c: Client, event: EventV1): Client {
    match event
    case UserAdded(_, u) => c.(users := AddId(c.users, u))
    case UserRemoved(_, u) => c.(users := RemoveId(c.users, u))
    case ClientPurposeAdded(_, p) => c.(purposes := AddId(c.purposes, p))
    case ClientPurposeRemoved(_, p) => c.(purposes := RemoveId(c.purposes, p))
    case KeysAdded(_, keys) => c.(keys := AddNew(c.keys, Storable(keys)))
    case KeyDeleted(_, kid) => c.(keys := RemoveKid(c.keys, kid))
    case KeyRelationshipToUserMigrated(_, kid, u) => c.(keys := SetUser(c.keys, kid, u))
    case ClientAdded(_) => c
    case ClientDeleted(_) => c
  }

  // ---- lists and the rows they become ----

  lemma {:induction false} RemovedId(ids: seq<Id>, id: Id)
    ensures forall x :: x in RemoveId(ids, id) <==> x in ids && x != id
    ensures Distinct(ids) ==> Distinct(RemoveId(ids, id))
  {
    if ids != [] {
      RemovedId(ids[1..], id);
      if Distinct(ids) {
        assert forall i | 0 <= i < |ids| - 1 :: ids[1..][i] == ids[i + 1];
        assert Distinct(ids[1..]) && ids[0] !in ids[1..];
      }
    }
  }

  /** The map of a list of keys with distinct kids. */
  ghost predicate IsMapOf(m: map<Id, KeyData>, keys: seq<Key>) {
    && (forall kid: Id :: kid in m <==> HasKid(keys, kid))
    && (forall i | 0 <= i < |keys| :: keys[i].kid in m && m[keys[i].kid] == keys[i].data)
  }

  lemma MapsAgree(m: map<Id, KeyData>, m': map<Id, KeyData>, keys: seq<Key>)
    requires IsMapOf(m, keys) && IsMapOf(m', keys)
    ensures m == m'
  {
    forall kid | kid in m ensures kid in m' && m[kid] == m'[kid] {
      assert HasKid(keys, kid);
      var i :| 0 <= i < |keys| && keys[i].kid == kid;
    }
    forall kid | kid in m' ensures kid in m { assert HasKid(keys, kid); }
  }

  lemma AppendedKey(m: map<Id, KeyData>, keys: seq<Key>, key: Key)
    requires IsMapOf(m, keys) && !HasKid(keys, key.kid)
    ensures IsMapOf(m[key.kid := key.data], keys + [key])
    ensures DistinctKids(keys) ==> DistinctKids(keys + [key])
  {
    var keys' := keys + [key];
    forall kid: Id ensures HasKid(keys', kid) <==> HasKid(keys, kid) || kid == key.kid {
      if HasKid(keys, kid) { var i :| 0 <= i < |keys| && keys[i].kid == kid; assert keys'[i].kid == kid; }
      assert keys'[|keys|].kid == key.kid;
    }
    assert forall i | 0 <= i < |keys| :: HasKid(keys, keys[i].kid);
  }

  lemma {:induction false} MergedIsMap(m: map<Id, KeyData>, done: seq<Key>, keys: seq<Key>)
    requires IsMapOf(m, done) && DistinctKids(done + keys)
    ensures IsMapOf(Merged(m, keys), done + keys)
    decreases |keys|
  {
    if keys == [] {
      assert done + keys == done;
    } else {
      var all := done + keys;
      assert all == (done + [keys[0]]) + keys[1..];
      assert all[|done|] == keys[0] && forall i | 0 <= i < |done| :: all[i] == done[i];
      AppendedKey(m, done, keys[0]);
      MergedIsMap(m[keys[0].kid := keys[0].data], done + [keys[0]], keys[1..]);
    }
  }

  lemma SnapshotKeys(keys: seq<Key>)
    requires DistinctKids(keys)
    ensures IsMapOf(Merged(map[], keys), keys)
  {
    assert [] + keys == keys;
    assert IsMapOf(map[], []);
    MergedIsMap(map[], [], keys);
  }

  lemma {:induction false} AddedNew(keys: seq<Key>, more: seq<Key>)
    requires DistinctKids(keys)
    ensures DistinctKids(AddNew(keys, more))
    ensures Merged(map[], AddNew(keys, more)) == Merged(Merged(map[], keys), more)
    decreases |more|
  {
    if more != [] {
      var m := Merged(map[], keys);
      SnapshotKeys(keys);
      assert more[0].kid in m <==> HasKid(keys, more[0].kid);
      if HasKid(keys, more[0].kid) {
        AddedNew(keys, more[1..]);
      } else {
        var keys' := keys + [more[0]];
        AppendedKey(m, keys, more[0]);
        SnapshotKeys(keys');
        MapsAgree(Merged(map[], keys'), m[more[0].kid := more[0].data], keys');
        AddedNew(keys', more[1..]);
      }
    }
  }

  lemma {:induction false} RemovedKid(keys: seq<Key>, kid: Id)
    ensures forall x: Id :: HasKid(RemoveKid(keys, kid), x) <==> HasKid(keys, x) && x != kid
    ensures forall i | 0 <= i < |RemoveKid(keys, kid)| :: RemoveKid(keys, kid)[i] in keys
    ensures DistinctKids(keys) ==> DistinctKids(RemoveKid(keys, kid))
  {
    if keys != [] {
      var tail := RemoveKid(keys[1..], kid);
      RemovedKid(keys[1..], kid);
      forall x: Id ensures HasKid(keys, x) <==> keys[0].kid == x || HasKid(keys[1..], x) {
        SplitKids(keys, x);
      }
      if keys[0].kid != kid {
        forall x: Id ensures HasKid([keys[0]] + tail, x) <==> keys[0].kid == x || HasKid(tail, x) {
          assert ([keys[0]] + tail)[1..] == tail;
          SplitKids([keys[0]] + tail, x);
        }
      }
      if DistinctKids(keys) {
        assert forall i | 0 <= i < |keys| - 1 :: keys[1..][i] == keys[i + 1];
        assert !HasKid(keys[1..], keys[0].kid);
        assert forall i | 0 <= i < |tail| :: HasKid(tail, tail[i].kid);
      }
    }
  }

  lemma SplitKids(keys: seq<Key>, x: Id)
    requires keys != []
    ensures HasKid(keys, x) <==> keys[0].kid == x || HasKid(keys[1..], x)
  {
    if HasKid(keys[1..], x) {
      var i :| 0 <= i < |keys| - 1 && keys[1..][i].kid == x;
      assert keys[i + 1].kid == x;
    }
    if HasKid(keys, x) && keys[0].kid != x {
      var i :| 0 <= i < |keys| && keys[i].kid == x;
      assert keys[1..][i - 1].kid == x;
    }
  }

  lemma SnapshotWithoutKid(keys: seq<Key>, kid: Id)
    requires DistinctKids(keys)
    ensures DistinctKids(RemoveKid(keys, kid))
    ensures Merged(map[], RemoveKid(keys, kid)) == Merged(map[], keys) - {kid}
  {
    RemovedKid(keys, kid);
    SnapshotKeys(keys);
    SnapshotKeys(RemoveKid(keys, kid));
    var m, rest := Merged(map[], keys) - {kid}, RemoveKid(keys, kid);
    assert IsMapOf(m, rest) by {
      forall i | 0 <= i < |rest| ensures rest[i].kid in m && m[rest[i].kid] == rest[i].data {
        assert HasKid(rest, rest[i].kid);
        var j :| 0 <= j < |keys| && keys[j] == rest[i];
      }
    }
    MapsAgree(Merged(map[], rest), m, rest);
  }

  function WithUser(m: map<Id, KeyData>, kid: Id, userId: Id): map<Id, KeyData> {
    if kid in m then m[kid := m[kid].(userId := Some(userId))] else m
  }

  lemma UserChangedMap(m: map<Id, KeyData>, keys: seq<Key>, kid: Id, userId: Id)
    requires IsMapOf(m, keys)
    ensures IsMapOf(WithUser(m, kid, userId), SetUser(keys, kid, userId))
  {
    var changed := SetUser(keys, kid, userId);
    forall x: Id ensures HasKid(changed, x) <==> HasKid(keys, x) {
      if HasKid(keys, x) { var i :| 0 <= i < |keys| && keys[i].kid == x; assert changed[i].kid == x; }
      if HasKid(changed, x) { var i :| 0 <= i < |changed| && changed[i].kid == x; assert keys[i].kid == x; }
    }
    forall i | 0 <= i < |changed|
      ensures changed[i].kid in WithUser(m, kid, userId) && WithUser(m, kid, userId)[changed[i].kid] == changed[i].data
    {
      assert keys[i].kid in m && m[keys[i].kid] == keys[i].data;
    }
  }

  lemma SnapshotWithUser(keys: seq<Key>, kid: Id, userId: Id)
    requires DistinctKids(keys)
    ensures DistinctKids(SetUser(keys, kid, userId))
    ensures Merged(map[], SetUser(keys, kid, userId)) == WithUser(Merged(map[], keys), kid, userId)
  {
    SnapshotKeys(keys);
    SnapshotKeys(SetUser(keys, kid, userId));
    UserChangedMap(Merged(map[], keys), keys, kid, userId);
    MapsAgree(Merged(map[], SetUser(keys, kid, userId)), WithUser(Merged(map[], keys), kid, userId),
      SetUser(keys, kid, userId));
  }

  // ---- deltas refine snapshots ----

  /** The tables hold what `upsertClient` would write for the client, and it would commit. */
  predicate Stores(w: Option<Whole>, c: Option<Client>, version: nat) {
    match c
    case None => w == None
    case Some(client) =>
      w == Some(Snapshot(client, version)) && Distinct(client.purposes) && DistinctKids(client.keys)
  }

  predicate Bumps(op: Op) {
    op != AddKeys([])
  }

  /** Deltas come for existing clients, and a client is created with distinct purposes and kids. */
  predicate Sensible(c: Option<Client>, event: EventV1) {
    match event
    case ClientAdded(client) => Distinct(client.purposes) && DistinctKids(client.keys)
    case UserAdded(_, _) => c.Some?
    case ClientPurposeAdded(_, _) => c.Some?
    case KeysAdded(_, _) => c.Some?
    case _ => true
  }

  lemma PartStores(client: Client, event: EventV1, version: nat)
    requires !event.ClientAdded? && !event.ClientDeleted?
    requires Distinct(client.purposes) && DistinctKids(client.keys)
    ensures var client' := FoldPart(client, event);
            && Changed(Snapshot(client, version), CallV1(event).op) == Snapshot(client', version)
            && Distinct(client'.purposes) && DistinctKids(client'.keys)
  {
    match event
    case UserAdded(_, u) => assert ToSet(AddId(client.users, u)) == ToSet(client.users) + {u};
    case UserRemoved(_, u) => RemovedId(client.users, u);
    case ClientPurposeAdded(_, p) => assert ToSet(AddId(client.purposes, p)) == ToSet(client.purposes) + {p};
    case ClientPurposeRemoved(_, p) => RemovedId(client.purposes, p);
    case KeysAdded(_, keys) => AddedNew(client.keys, Storable(keys));
    case KeyDeleted(_, kid) => SnapshotWithoutKid(client.keys, kid);
    case KeyRelationshipToUserMigrated(_, kid, u) => SnapshotWithUser(client.keys, kid, u);
  }

  lemma DeltaStores(w: Option<Whole>, c: Option<Client>, event: EventV1, stored: nat, version: nat)
    requires Stores(w, c, stored) && (c.Some? ==> stored <= version) && Sensible(c, event)
    ensures var op := CallV1(event).op;
            Apply(w, op, version).Ok?
              && Stores(Apply(w, op, version).value, Fold(c, event), if Bumps(op) then version else stored)
  {
    if !event.ClientAdded? && !event.ClientDeleted? && c.Some? {
      PartStores(c.value, event, stored);
    }
  }

  // ---- whole streams ----

  function FoldTo(log: seq<Message>, c: Id, n: nat): Option<Client>
    requires n <= |log| && forall m <- log :: m.V1?
  {
    if n == 0 then None
    else if log[n - 1].Called().clientId == c then Fold(FoldTo(log, c, n - 1), log[n - 1].event)
    else FoldTo(log, c, n - 1)
  }

  /** The version of the last message about the client that had anything to store. */
  function LastVersion(log: seq<Message>, c: Id, n: nat): nat
    requires n <= |log|
  {
    if n == 0 then 0
    else if log[n - 1].Called().clientId == c && Bumps(log[n - 1].Called().op) then log[n - 1].version
    else LastVersion(log, c, n - 1)
  }

  ghost predicate SensibleStream(log: seq<Message>, c: Id)
    requires forall m <- log :: m.V1?
  {
    forall i: nat {:trigger FoldTo(log, c, i)} | i < |log| && log[i].Called().clientId == c ::
      Sensible(FoldTo(log, c, i), log[i].event)
  }

  lemma {:induction false} LastVersionIsOlder(log: seq<Message>, c: Id, n: nat, m: nat)
    requires Versioned(log, c) && n <= m < |log| && log[m].Called().clientId == c
    ensures LastVersion(log, c, n) <= log[m].version
  {
    if n > 0 {
      if log[n - 1].Called().clientId == c && Bumps(log[n - 1].Called().op) {
        assert InOrder(c, log[n - 1], log[m]);
      } else {
        LastVersionIsOlder(log, c, n - 1, m);
      }
    }
  }

  lemma {:induction false} StreamStep(log: seq<Message>, c: Id, n: nat, w: Option<Whole>)
    requires n < |log| && (forall m <- log :: m.V1?) && Versioned(log, c) && SensibleStream(log, c)
    requires Stores(w, FoldTo(log, c, n), LastVersion(log, c, n))
    ensures Handle(c, w, log[n]).Ok?
    ensures Stores(Handle(c, w, log[n]).value, FoldTo(log, c, n + 1), LastVersion(log, c, n + 1))
  {
    var m := log[n];
    if m.Called().clientId == c {
      LastVersionIsOlder(log, c, n, n);
      DeltaStores(w, FoldTo(log, c, n), m.event, LastVersion(log, c, n), m.version);
    }
  }

  /** Deltas refine snapshots: after every prefix of a V1 stream the client's rows are those that `upsertClient`
      would write for the folded client, at the version of the last message with anything to store. */
  lemma {:induction false} DeltasRefineSnapshots(log: seq<Message>, c: Id, n: nat)
    requires n <= |log| && (forall m <- log :: m.V1?) && Versioned(log, c) && SensibleStream(log, c)
    ensures Stores(RunTo(HandlerOf(c), log, n), FoldTo(log, c, n), LastVersion(log, c, n))
  {
    if n > 0 {
      DeltasRefineSnapshots(log, c, n - 1);
      StreamStep(log, c, n - 1, RunTo(HandlerOf(c), log, n - 1));
      assert RunTo(HandlerOf(c), log, n) == Handle(c, RunTo(HandlerOf(c), log, n - 1), log[n - 1]).value;
    }
  }

  /** No transaction of such a stream aborts. */
  lemma {:induction false} StreamIsClean(log: seq<Message>, c: Id)
    requires (forall m <- log :: m.V1?) && Versioned(log, c) && SensibleStream(log, c)
    ensures Clean(HandlerOf(c), log, |log|)
  {
    forall i: nat | i < |log| ensures Succeeds(HandlerOf(c), log, i) {
      DeltasRefineSnapshots(log, c, i);
      StreamStep(log, c, i, RunTo(HandlerOf(c), log, i));
    }
  }
}
