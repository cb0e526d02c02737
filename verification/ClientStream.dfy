/**
 Streams of authorization messages on the SQL read model of clients. V1 messages are deltas and V2 messages
 are snapshots; a delta stream leaves the rows that one snapshot of the folded client would leave, and the
 final tables do not depend on how often messages are delivered.
 */
module ClientStream {
  import opened Basics
  import opened ClientReadModel
  import opened Delivery

  // ---- messages ----

  /** A key as V1 messages carry it: an empty user id stands for none. */
  datatype KeyV1 = KeyV1(kid: Id, userId: string, data: KeyData)

  /** Keys are optional in the message and those of an elliptic curve are not stored. */
  function Storable(keys: seq<Option<KeyV1>>): seq<Key> {
    if keys == [] then []
    else if keys[0].Some? && keys[0].value.data.keyType != EC then
      var k := keys[0].value;
      [Key(k.kid, k.data.(userId := if k.userId != "" then Some(k.userId) else None))] + Storable(keys[1..])
    else Storable(keys[1..])
  }

  datatype EventV1 =
    | ClientAdded(client: Client)
    | UserAdded(clientId: Id, userId: Id)
    | UserRemoved(clientId: Id, userId: Id)
    | ClientPurposeAdded(clientId: Id, purposeId: Id)
    | ClientPurposeRemoved(clientId: Id, purposeId: Id)
    | KeysAdded(clientId: Id, keys: seq<Option<KeyV1>>)
    | KeyDeleted(clientId: Id, kid: Id)
    | ClientDeleted(clientId: Id)
    | KeyRelationshipToUserMigrated(clientId: Id, kid: Id, userId: Id)

  datatype EventV2 =
    | ClientKeyAddedV2(client: Client, kid: Id)
    | ClientKeyDeletedV2(client: Client, kid: Id)
    | ClientChangedV2(client: Client)             // the eight other message types that carry the whole client
    | ClientDeletedV2(clientId: Id)

  /** A call of the writer. */
  datatype Call = Call(clientId: Id, op: Op)

  function CallV1(event: EventV1): Call {
    match event
    case ClientAdded(client) => Call(client.id, Upsert(client))
    case UserAdded(c, u) => Call(c, AddUser(u))
    case UserRemoved(c, u) => Call(c, RemoveUser(u))
    case ClientPurposeAdded(c, p) => Call(c, AddPurpose(p))
    case ClientPurposeRemoved(c, p) => Call(c, RemovePurpose(p))
    case KeysAdded(c, keys) => Call(c, AddKeys(Storable(keys)))
    case KeyDeleted(c, kid) => Call(c, DeleteKey(kid))
    case ClientDeleted(c) => Call(c, Delete)
    case KeyRelationshipToUserMigrated(c, kid, u) => Call(c, MigrateKey(kid, u))
  }

  function CallV2(event: EventV2): Call {
    match event
    case ClientDeletedV2(c) => Call(c, Delete)
    case _ => Call(event.client.id, Upsert(event.client))
  }

  datatype Message = V1(event: EventV1, version: nat) | V2(eventV2: EventV2, version: nat)
  {
    function Called(): Call { if V1? then CallV1(event) else CallV2(eventV2) }
  }

  /** What a message does to client `c`. */
  function Handle(c: Id, w: Option<Whole>, m: Message): Result<Option<Whole>> {
    if m.Called().clientId == c then Apply(w, m.Called().op, m.version) else Ok(w)
  }

  function HandlerOf(c: Id): Handler<Whole, Message> {
    (w, m) => Handle(c, w, m)
  }

  // ---- delivery independence ----

  predicate InOrder(c: Id, earlier: Message, later: Message) {
    earlier.Called().clientId == c && later.Called().clientId == c ==> earlier.version < later.version
  }

  /** Versions of one client increase along the log. */
  ghost predicate Versioned(log: seq<Message>, c: Id) {
    forall i: nat, j: nat {:trigger InOrder(c, log[i], log[j])} | i < j < |log| :: InOrder(c, log[i], log[j])
  }

  predicate HasKid(keys: seq<Key>, kid: Id) {
    exists i :: 0 <= i < |keys| && keys[i].kid == kid
  }

  lemma {:induction false} MergedKids(m: map<Id, KeyData>, more: seq<Key>)
    ensures forall kid: Id :: kid in Merged(m, more) <==> kid in m || HasKid(more, kid)
    ensures forall kid <- m :: Merged(m, more)[kid] == m[kid]
    decreases |more|
  {
    if more != [] {
      var m' := if more[0].kid in m then m else m[more[0].kid := more[0].data];
      MergedKids(m', more[1..]);
      forall kid: Id ensures kid in Merged(m, more) <==> kid in m || HasKid(more, kid) {
        if HasKid(more[1..], kid) {
          var i :| 0 <= i < |more| - 1 && more[1..][i].kid == kid;
          assert more[i + 1].kid == kid;
        }
        if HasKid(more, kid) && kid != more[0].kid {
          var i :| 0 <= i < |more| && more[i].kid == kid;
          assert more[1..][i - 1].kid == kid;
        }
        assert more[0].kid == kid ==> HasKid(more, kid);
      }
    }
  }

  lemma {:induction false} MergingPresentKids(m: map<Id, KeyData>, more: seq<Key>)
    requires forall i | 0 <= i < |more| :: more[i].kid in m
    ensures Merged(m, more) == m
    decreases |more|
  {
    if more != [] { MergingPresentKids(m, more[1..]); }
  }

  lemma ChangedTwice(w: Whole, op: Op)
    requires ChangesPart(op)
    ensures Changed(Changed(w, op), op) == Changed(w, op)
  {
    var w' := Changed(w, op);
    match op
    case AddUser(u) => assert w'.users + {u} == w'.users;
    case RemoveUser(u) => assert w'.users - {u} == w'.users;
    case AddPurpose(p) => assert w'.purposes + {p} == w'.purposes;
    case RemovePurpose(p) => assert w'.purposes - {p} == w'.purposes;
    case DeleteKey(kid) => assert w'.keys - {kid} == w'.keys;
    case MigrateKey(_, _) =>
    case AddKeys(keys) =>
      MergedKids(w.keys, keys);
      forall i | 0 <= i < |keys| ensures keys[i].kid in w'.keys { assert HasKid(keys, keys[i].kid); }
      MergingPresentKids(w'.keys, keys);
  }

  /** A writer call that has just been made changes nothing when made again. */
  lemma AppliedTwice(w: Option<Whole>, op: Op, version: nat)
    requires Apply(w, op, version).Ok?
    ensures var w' := Apply(w, op, version).value;
            w'.Some? ==> Apply(w', op, version) == Ok(w')
  {
    if w.Some? && ChangesPart(op) {
      ChangedTwice(w.value, op);
      ChangeIgnoresVersion(Changed(w.value, op), op, version);
    }
  }

  lemma ChangeIgnoresVersion(w: Whole, op: Op, version: nat)
    requires ChangesPart(op)
    ensures Changed(w.(version := version), op) == Changed(w, op).(version := version)
  {
  }

  /** A call that changes a client leaves it with the call's version. */
  lemma ChangesBump(w: Option<Whole>, op: Op, version: nat)
    requires Apply(w, op, version).Ok? && Apply(w, op, version).value != w && Apply(w, op, version).value.Some?
    ensures Apply(w, op, version).value.value.version == version
  {
  }

  /** While the client exists its version never decreases. */
  lemma {:induction false} VersionNeverDecreases(log: seq<Message>, c: Id, n: nat, m: nat)
    requires n <= m <= |log| && forall i: nat | n <= i <= m :: RunTo(HandlerOf(c), log, i).Some?
    ensures RunTo(HandlerOf(c), log, n).value.version <= RunTo(HandlerOf(c), log, m).value.version
    decreases m
  {
    if n < m {
      VersionNeverDecreases(log, c, n, m - 1);
      var w := RunTo(HandlerOf(c), log, m - 1);
      assert RunTo(HandlerOf(c), log, m) == Handled(HandlerOf(c), w, log[m - 1]);
    }
  }

  lemma HandledTwice(c: Id, w: Option<Whole>, m: Message)
    requires Handle(c, w, m).Ok? && Handle(c, w, m).value.Some?
    ensures Handle(c, Handle(c, w, m).value, m) == Handle(c, w, m)
  {
    if m.Called().clientId == c { AppliedTwice(w, m.Called().op, m.version); }
  }

  /** A message that changed the client makes all earlier ones stale. */
  lemma EarlierIsStale(c: Id, w: Option<Whole>, m: Message, earlier: Message)
    requires Handle(c, w, m).Ok? && Handle(c, w, m).value.Some? && Handle(c, w, m).value != w
    requires InOrder(c, earlier, m)
    ensures Handle(c, Handle(c, w, m).value, earlier) == Handle(c, w, m)
  {
    ChangesBump(w, m.Called().op, m.version);
  }

  lemma {:induction false} ClientAbsorbs(log: seq<Message>, c: Id, h: nat, i: nat)
    requires Versioned(log, c) && i < h <= |log|
    requires Clean(HandlerOf(c), log, h) && RunTo(HandlerOf(c), log, h).Some?
    ensures Handle(c, RunTo(HandlerOf(c), log, h), log[i]) == Ok(RunTo(HandlerOf(c), log, h))
    decreases h
  {
    var f := HandlerOf(c);
    var w, m := RunTo(f, log, h - 1), log[h - 1];
    CleanPrefix(f, log, h - 1);
    assert f(w, m) == Handle(c, w, m);
    if i == h - 1 {
      HandledTwice(c, w, m);
    } else if RunTo(f, log, h) == w {
      ClientAbsorbs(log, c, h - 1, i);
    } else {
      assert InOrder(c, log[i], log[h - 1]);
      EarlierIsStale(c, w, m, log[i]);
    }
  }

  lemma {:induction false} ClientVanishes(log: seq<Message>, c: Id, i: nat)
    requires i < |log|
    ensures VanishedAt(HandlerOf(c), log, i)
  {
  }

  /** Delivery independence: the tables end as after an exactly-once run, for every schedule of crashes and
      for replays from the earliest offset, deletions included. */
  lemma {:induction false} TablesDoNotDependOnSchedule(log: seq<Message>, c: Id, steps: seq<Step>)
    requires Versioned(log, c)
    ensures var end := Run(HandlerOf(c), log, steps);
            end.position == |log| ==>
              end.state == RunTo(HandlerOf(c), log, |log|) && Clean(HandlerOf(c), log, |log|)
  {
    var f := HandlerOf(c);
    forall i: nat, h: nat | i < h <= |log| ensures AbsorbedAt(f, log, i, h) {
      if Clean(f, log, h) && RunTo(f, log, h).Some? { ClientAbsorbs(log, c, h, i); }
    }
    forall i: nat | i < |log| ensures VanishedAt(f, log, i) { ClientVanishes(log, c, i); }
    ScheduleDoesNotMatter(f, log, steps);
  }
}
