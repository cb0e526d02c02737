/** The client read model and the JWK read model hold the same kids. */
module ProjectionsAgree {
  import opened Basics
  import opened ClientReadModel
  import opened Delivery
  import opened ClientStream
  import opened KeyProjections

  function JwkHandlerOf(k: PartKey): Handler<JwkRow, Message> {
    (row, m) => if Convertible(m) then Ok(JwkStep(k, row, m)) else Failed
  }

  // ---- repeated upserts ----

  function LastData(keys: seq<Key>, kid: Id): KeyData
    requires HasKid(keys, kid)
    decreases |keys|
  {
    var last := keys[|keys| - 1];
    if last.kid == kid then last.data
    else
      var i :| 0 <= i < |keys| && keys[i].kid == kid;
      assert keys[..|keys| - 1][i].kid == kid;
      LastData(keys[..|keys| - 1], kid)
  }

  lemma {:induction false} UpsertLast(row: Option<JwkRow>, kid: Id, keys: seq<Key>, last: Key, version: nat)
    ensures UpsertEach(row, kid, keys + [last], version) ==
            var row' := UpsertEach(row, kid, keys, version);
            if last.kid == kid then Upserted(row', last.data, version) else row'
    decreases |keys|
  {
    if keys == [] {
      assert ([] + [last])[1..] == [];
    } else {
      assert (keys + [last])[1..] == keys[1..] + [last];
      UpsertLast(if keys[0].kid == kid then Upserted(row, keys[0].data, version) else row,
                 kid, keys[1..], last, version);
    }
  }

  /** A batch of upserts is one upsert of the last key with the kid. */
  lemma {:induction false} UpsertEachIsOne(row: Option<JwkRow>, kid: Id, keys: seq<Key>, version: nat)
    ensures UpsertEach(row, kid, keys, version) ==
            if HasKid(keys, kid) then Upserted(row, LastData(keys, kid), version) else row
    decreases |keys|
  {
    if keys != [] {
      var init, last := keys[..|keys| - 1], keys[|keys| - 1];
      assert keys == init + [last];
      UpsertLast(row, kid, init, last, version);
      UpsertEachIsOne(row, kid, init, version);
      if HasKid(init, kid) { var i :| 0 <= i < |init| && init[i].kid == kid; assert keys[i].kid == kid; }
      if last.kid == kid { assert HasKid(keys, kid); }
    }
  }

  // ---- one key under redelivery ----

  lemma JwkStepTwice(k: PartKey, row: Option<JwkRow>, m: Message)
    requires Convertible(m) && JwkStep(k, row, m).Some?
    ensures JwkStep(k, JwkStep(k, row, m), m) == JwkStep(k, row, m)
  {
    if m.V1? && m.event.KeysAdded? {
      UpsertEachIsOne(row, k.id, Storable(m.event.keys), m.version);
      UpsertEachIsOne(JwkStep(k, row, m), k.id, Storable(m.event.keys), m.version);
    }
  }

  lemma JwkStepStale(k: PartKey, row: Option<JwkRow>, m: Message)
    requires Convertible(m) && row.Some? && (m.Called().clientId == k.clientId ==> m.version < row.value.version)
    ensures JwkStep(k, row, m) == row
  {
    if m.V1? && m.event.KeysAdded? { UpsertEachIsOne(row, k.id, Storable(m.event.keys), m.version); }
  }

  lemma JwkStepBumps(k: PartKey, row: Option<JwkRow>, m: Message)
    requires Convertible(m)
    ensures JwkStep(k, row, m).Some? && JwkStep(k, row, m) != row ==>
              m.Called().clientId == k.clientId && JwkStep(k, row, m).value.version == m.version
    ensures JwkStep(k, row, m).None? ==> JwkStep(k, None, m).None?
  {
    if m.V1? && m.event.KeysAdded? {
      UpsertEachIsOne(row, k.id, Storable(m.event.keys), m.version);
      UpsertEachIsOne(None, k.id, Storable(m.event.keys), m.version);
    }
  }

  ghost predicate ConvertibleTo(log: seq<Message>, n: nat)
    requires n <= |log|
  {
    forall i: nat {:trigger log[i]} | i < n :: Convertible(log[i])
  }

  /** The JWK consumer throws at a key that it cannot convert, and at nothing else. */
  lemma CleanIsConvertible(log: seq<Message>, k: PartKey, n: nat)
    requires n <= |log|
    ensures Clean(JwkHandlerOf(k), log, n) <==> ConvertibleTo(log, n)
  {
    forall i: nat | i < n ensures Succeeds(JwkHandlerOf(k), log, i) <==> Convertible(log[i]) {}
  }

  lemma {:induction false} JwkAbsorbs(log: seq<Message>, k: PartKey, h: nat, i: nat)
    requires Versioned(log, k.clientId) && i < h <= |log| && ConvertibleTo(log, h)
    requires RunTo(JwkHandlerOf(k), log, h).Some?
    ensures JwkStep(k, RunTo(JwkHandlerOf(k), log, h), log[i]) == RunTo(JwkHandlerOf(k), log, h)
    decreases h
  {
    var f := JwkHandlerOf(k);
    var row, m := RunTo(f, log, h - 1), log[h - 1];
    assert RunTo(f, log, h) == JwkStep(k, row, m);
    if i == h - 1 {
      JwkStepTwice(k, row, m);
    } else if JwkStep(k, row, m) == row {
      JwkAbsorbs(log, k, h - 1, i);
    } else {
      assert InOrder(k.clientId, log[i], log[h - 1]);
      JwkStepBumps(k, row, m);
      JwkStepStale(k, JwkStep(k, row, m), log[i]);
    }
  }

  /** Delivery independence, key by key. */
  lemma {:induction false} JwkRowsDoNotDependOnSchedule(log: seq<Message>, k: PartKey, steps: seq<Step>)
    requires Versioned(log, k.clientId)
    ensures var end := Run(JwkHandlerOf(k), log, steps);
            end.position == |log| ==>
              end.state == RunTo(JwkHandlerOf(k), log, |log|) && Clean(JwkHandlerOf(k), log, |log|)
  {
    var f := JwkHandlerOf(k);
    forall i: nat, h: nat | i < h <= |log| ensures AbsorbedAt(f, log, i, h) {
      CleanIsConvertible(log, k, h);
      if Clean(f, log, h) && RunTo(f, log, h).Some? { JwkAbsorbs(log, k, h, i); }
    }
    forall i: nat | i < |log| ensures VanishedAt(f, log, i) {
      if Convertible(log[i]) { JwkStepBumps(k, RunTo(f, log, i), log[i]); }
    }
    ScheduleDoesNotMatter(f, log, steps);
  }

  // ---- the kids that the messages describe ----

  function KidsIn(keys: seq<Key>): set<Id> {
    set k | k in keys :: k.kid
  }

  function KidsAfter(kids: set<Id>, m: Message): set<Id> {
    match m
    case V1(event, _) =>
      (match event
       case KeysAdded(_, keys) => kids + KidsIn(Storable(keys))
       case KeyDeleted(_, kid) => kids - {kid}
       case ClientDeleted(_) => {}
       case _ => kids)
    case V2(event, _) =>
      (match event
       case ClientKeyAddedV2(_, kid) => kids + {kid}
       case ClientKeyDeletedV2(_, kid) => kids - {kid}
       case ClientDeletedV2(_) => {}
       case ClientChangedV2(_) => kids)
  }

  function KidsTo(log: seq<Message>, c: Id, n: nat): set<Id>
    requires n <= |log|
  {
    if n == 0 then {}
    else if log[n - 1].Called().clientId == c then KidsAfter(KidsTo(log, c, n - 1), log[n - 1])
    else KidsTo(log, c, n - 1)
  }

  /** A client is created with the kids that it has already, as a rule none, and a snapshot differs from what was
      stored by the named kid only. */
  predicate NamesItsKid(kids: set<Id>, m: Message) {
    match m
    case V1(event, _) => event.ClientAdded? ==> KidsIn(event.client.keys) == kids
    case V2(event, _) => event.ClientDeletedV2? || KidsIn(event.client.keys) == KidsAfter(kids, m)
  }

  predicate NamesItsKidAt(log: seq<Message>, c: Id, i: nat)
    requires i < |log|
  {
    log[i].Called().clientId == c ==> NamesItsKid(KidsTo(log, c, i), log[i])
  }

  ghost predicate NamedTo(log: seq<Message>, c: Id, n: nat)
    requires n <= |log|
  {
    forall i: nat {:trigger NamesItsKidAt(log, c, i)} | i < n :: NamesItsKidAt(log, c, i)
  }

  function StoredKids(w: Option<Whole>): set<Id> {
    if w.None? then {} else w.value.keys.Keys
  }

  lemma MergedKidSet(m: map<Id, KeyData>, more: seq<Key>)
    ensures Merged(m, more).Keys == m.Keys + KidsIn(more)
  {
    MergedKids(m, more);
    forall kid: Id ensures kid in KidsIn(more) <==> HasKid(more, kid) { KidInSeq(more, kid); }
  }

  lemma KidInSeq(keys: seq<Key>, kid: Id)
    ensures kid in KidsIn(keys) <==> HasKid(keys, kid)
  {
    if kid in KidsIn(keys) {
      var k :| k in keys && k.kid == kid;
      var i :| 0 <= i < |keys| && keys[i] == k;
    }
    if HasKid(keys, kid) {
      var i :| 0 <= i < |keys| && keys[i].kid == kid;
      assert keys[i] in keys;
    }
  }

  lemma ClientStepKidsIff(c: Id, w: Option<Whole>, m: Message)
    requires m.Called().clientId == c && Handle(c, w, m).Ok? && !IsStale(w, m.version)
    ensures StoredKids(Handle(c, w, m).value) == KidsAfter(StoredKids(w), m) <==> NamesItsKid(StoredKids(w), m)
  {
    if m.Called().op.Upsert? {
      MergedKidSet(map[], m.Called().op.client.keys);
    } else if m.V1? && m.event.KeysAdded? && w.Some? {
      MergedKidSet(w.value.keys, Storable(m.event.keys));
    }
  }

  lemma {:induction false} StoredIsOlder(log: seq<Message>, c: Id, n: nat, m: nat)
    requires Versioned(log, c) && n <= m < |log| && log[m].Called().clientId == c
    ensures !IsStale(RunTo(HandlerOf(c), log, n), log[m].version)
  {
    if n > 0 {
      StoredIsOlder(log, c, n - 1, m);
      var w, last := RunTo(HandlerOf(c), log, n - 1), log[n - 1];
      assert RunTo(HandlerOf(c), log, n) == if Handle(c, w, last).Ok? then Handle(c, w, last).value else w;
      assert InOrder(c, last, log[m]);
      if Handle(c, w, last).Ok? && last.Called().clientId == c && Handle(c, w, last).value != w
        && Handle(c, w, last).value.Some? {
        ChangesBump(w, last.Called().op, last.version);
      }
    }
  }

  predicate KidsStoredAt(log: seq<Message>, c: Id, n: nat)
    requires n <= |log|
  {
    StoredKids(RunTo(HandlerOf(c), log, n)) == KidsTo(log, c, n)
  }

  lemma ClientKidsStepIff(log: seq<Message>, c: Id, n: nat)
    requires Versioned(log, c) && n < |log| && KidsStoredAt(log, c, n) && Clean(HandlerOf(c), log, n + 1)
    ensures KidsStoredAt(log, c, n + 1) <==> NamesItsKidAt(log, c, n)
  {
    CleanPrefix(HandlerOf(c), log, n);
    if log[n].Called().clientId == c {
      StoredIsOlder(log, c, n, n);
      ClientStepKidsIff(c, RunTo(HandlerOf(c), log, n), log[n]);
    }
  }

  lemma {:induction false} ClientKids(log: seq<Message>, c: Id, n: nat)
    requires Versioned(log, c) && n <= |log| && NamedTo(log, c, n) && Clean(HandlerOf(c), log, n)
    ensures KidsStoredAt(log, c, n)
  {
    if n > 0 {
      CleanPrefix(HandlerOf(c), log, n - 1);
      ClientKids(log, c, n - 1);
      assert NamesItsKidAt(log, c, n - 1);
      ClientKidsStepIff(log, c, n - 1);
    }
  }

  /** The client read model follows the kids that the messages describe, after every prefix, exactly when each
      message about the client names its kid. */
  lemma ClientKidsIff(log: seq<Message>, c: Id, n: nat)
    requires Versioned(log, c) && n <= |log| && Clean(HandlerOf(c), log, n)
    ensures (forall i: nat {:trigger KidsStoredAt(log, c, i)} | i <= n :: KidsStoredAt(log, c, i)) <==>
              NamedTo(log, c, n)
  {
    if NamedTo(log, c, n) {
      forall i: nat | i <= n ensures KidsStoredAt(log, c, i) { ClientKids(log, c, i); }
    }
    if forall i: nat {:trigger KidsStoredAt(log, c, i)} | i <= n :: KidsStoredAt(log, c, i) {
      forall i: nat | i < n ensures NamesItsKidAt(log, c, i) {
        assert KidsStoredAt(log, c, i) && KidsStoredAt(log, c, i + 1);
        assert forall j: nat | j < i + 1 :: Succeeds(HandlerOf(c), log, j);
        ClientKidsStepIff(log, c, i);
      }
    }
  }

  lemma {:induction false} JwkIsOlder(log: seq<Message>, k: PartKey, n: nat, m: nat)
    requires Versioned(log, k.clientId) && n <= m < |log| && ConvertibleTo(log, n)
    requires log[m].Called().clientId == k.clientId
    ensures var row := RunTo(JwkHandlerOf(k), log, n); row.Some? ==> row.value.version <= log[m].version
  {
    if n > 0 {
      JwkIsOlder(log, k, n - 1, m);
      var row, last := RunTo(JwkHandlerOf(k), log, n - 1), log[n - 1];
      assert RunTo(JwkHandlerOf(k), log, n) == JwkStep(k, row, last);
      assert InOrder(k.clientId, last, log[m]);
      JwkStepBumps(k, row, last);
    }
  }

  lemma JwkStepKid(k: PartKey, row: Option<JwkRow>, m: Message, kids: set<Id>)
    requires m.Called().clientId == k.clientId && Convertible(m) && (row.Some? ==> row.value.version <= m.version)
    requires row.Some? <==> k.id in kids
    ensures JwkStep(k, row, m).Some? <==> k.id in KidsAfter(kids, m)
  {
    if m.V1? && m.event.KeysAdded? {
      UpsertEachIsOne(row, k.id, Storable(m.event.keys), m.version);
      KidInSeq(Storable(m.event.keys), k.id);
    }
  }

  lemma {:induction false} JwkKids(log: seq<Message>, k: PartKey, n: nat)
    requires Versioned(log, k.clientId) && n <= |log| && ConvertibleTo(log, n)
    ensures RunTo(JwkHandlerOf(k), log, n).Some? <==> k.id in KidsTo(log, k.clientId, n)
  {
    if n > 0 {
      JwkKids(log, k, n - 1);
      var row, m := RunTo(JwkHandlerOf(k), log, n - 1), log[n - 1];
      assert RunTo(JwkHandlerOf(k), log, n) == JwkStep(k, row, m);
      if m.Called().clientId == k.clientId {
        JwkIsOlder(log, k, n - 1, n - 1);
        JwkStepKid(k, row, m, KidsTo(log, k.clientId, n - 1));
      }
    }
  }

  /** Both projections hold the same kids of the client. */
  ghost predicate AgreeAt(log: seq<Message>, c: Id, n: nat)
    requires n <= |log|
  {
    forall kid: Id :: kid in StoredKids(RunTo(HandlerOf(c), log, n)) <==>
      RunTo(JwkHandlerOf(PartKey(c, kid)), log, n).Some?
  }

  lemma AgreeIsStored(log: seq<Message>, c: Id, n: nat)
    requires Versioned(log, c) && n <= |log| && ConvertibleTo(log, n)
    ensures AgreeAt(log, c, n) <==> KidsStoredAt(log, c, n)
  {
    forall kid: Id ensures RunTo(JwkHandlerOf(PartKey(c, kid)), log, n).Some? <==> kid in KidsTo(log, c, n) {
      JwkKids(log, PartKey(c, kid), n);
    }
    if AgreeAt(log, c, n) {
      assert forall kid: Id :: kid in StoredKids(RunTo(HandlerOf(c), log, n)) <==> kid in KidsTo(log, c, n);
    }
  }

  /** After every common prefix of a client's messages both projections hold the same kids, exactly when each message
      about the client names its kid. */
  lemma PrefixesAgreeIff(log: seq<Message>, c: Id, n: nat)
    requires Versioned(log, c) && n <= |log| && Clean(HandlerOf(c), log, n) && ConvertibleTo(log, n)
    ensures (forall i: nat {:trigger AgreeAt(log, c, i)} | i <= n :: AgreeAt(log, c, i)) <==> NamedTo(log, c, n)
  {
    ClientKidsIff(log, c, n);
    forall i: nat | i <= n ensures AgreeAt(log, c, i) <==> KidsStoredAt(log, c, i) { AgreeIsStored(log, c, i); }
    if forall i: nat {:trigger AgreeAt(log, c, i)} | i <= n :: AgreeAt(log, c, i) {
      forall i: nat | i <= n ensures KidsStoredAt(log, c, i) { assert AgreeAt(log, c, i); }
    }
  }

  /** Each consumer has its own schedule; once both are at the end of the log they agree. */
  lemma SchedulesAgree(log: seq<Message>, c: Id, kid: Id, steps: seq<Step>, jwkSteps: seq<Step>)
    requires Versioned(log, c) && NamedTo(log, c, |log|)
    ensures var client, jwk := Run(HandlerOf(c), log, steps), Run(JwkHandlerOf(PartKey(c, kid)), log, jwkSteps);
            client.position == |log| && jwk.position == |log| ==> (kid in StoredKids(client.state) <==> jwk.state.Some?)
  {
    TablesDoNotDependOnSchedule(log, c, steps);
    JwkRowsDoNotDependOnSchedule(log, PartKey(c, kid), jwkSteps);
    CleanIsConvertible(log, PartKey(c, kid), |log|);
    var client, jwk := Run(HandlerOf(c), log, steps), Run(JwkHandlerOf(PartKey(c, kid)), log, jwkSteps);
    if client.position == |log| && jwk.position == |log| {
      PrefixesAgreeIff(log, c, |log|);
      assert AgreeAt(log, c, |log|);
    }
  }

  /** A client is created, an elliptic-curve key is added by a V1 message, and another key by a V2 message. */
  function EllipticLog(client: Client, key: Key, ec: Key): seq<Message> {
    [V1(ClientAdded(client), 0), V1(KeysAdded(client.id, [Some(KeyV1(ec.kid, "", ec.data))]), 1),
     V2(ClientKeyAddedV2(client.(keys := [ec, key]), key.kid), 2)]
  }

  predicate EllipticCase(client: Client, key: Key, ec: Key) {
    && client.users == [] && client.purposes == [] && client.keys == []
    && key.kid != ec.kid && key.data.keyType == RSA && ec.data.keyType == EC
  }

  lemma NothingStorable(ec: KeyV1)
    requires ec.data.keyType == EC
    ensures Storable([Some(ec)]) == []
  {
    assert [Some(ec)][1..] == [];
  }

  lemma EllipticInClient(client: Client, key: Key, ec: Key)
    requires EllipticCase(client, key, ec)
    ensures var f, log := HandlerOf(client.id), EllipticLog(client, key, ec);
            Clean(f, log, 3) && ec.kid in StoredKids(RunTo(f, log, 3))
  {
    var f, log := HandlerOf(client.id), EllipticLog(client, key, ec);
    NothingStorable(KeyV1(ec.kid, "", ec.data));
    assert Succeeds(f, log, 0) && RunTo(f, log, 1) == Some(Snapshot(client, 0));
    assert log[1].Called() == Call(client.id, AddKeys([]));
    assert Succeeds(f, log, 1) && RunTo(f, log, 2) == Some(Snapshot(client, 0));
    assert Succeeds(f, log, 2) && RunTo(f, log, 3) == Some(Snapshot(client.(keys := [ec, key]), 2));
    MergedKidSet(map[], [ec, key]);
    assert ec in [ec, key];
  }

  /** The snapshot names one kid and stores another one besides. */
  lemma EllipticNotNamed(client: Client, key: Key, ec: Key)
    requires EllipticCase(client, key, ec)
    ensures var log := EllipticLog(client, key, ec);
            Versioned(log, client.id) && ConvertibleTo(log, 3) && !NamedTo(log, client.id, 3)
              && KidsTo(log, client.id, 3) == {key.kid}
  {
    var log := EllipticLog(client, key, ec);
    NothingStorable(KeyV1(ec.kid, "", ec.data));
    assert [ec, key][1..] == [key];
    assert FindKid([ec, key], key.kid) == FindKid([key], key.kid) == Some(key);
    assert Convertible(log[0]) && Convertible(log[1]) && Convertible(log[2]);
    assert KidsAfter({}, log[0]) == {} && KidsTo(log, client.id, 1) == {};
    assert KidsIn([]) == {} && KidsAfter({}, log[1]) == {};
    assert KidsTo(log, client.id, 2) == {};
    assert KidsTo(log, client.id, 3) == {} + {key.kid};
    assert ec in [ec, key] && ec.kid in KidsIn([ec, key]);
    assert !NamesItsKidAt(log, client.id, 2);
  }

  /** Keys of an elliptic curve are why the condition can fail: V1 messages store them in neither projection, and the
      next snapshot of the client stores them in one. */
  lemma EllipticKeySplitsProjections(client: Client, key: Key, ec: Key)
    requires EllipticCase(client, key, ec)
    ensures var log := EllipticLog(client, key, ec);
            && Versioned(log, client.id) && ConvertibleTo(log, 3) && Clean(HandlerOf(client.id), log, 3)
            && ec.kid in StoredKids(RunTo(HandlerOf(client.id), log, 3)) && !AgreeAt(log, client.id, 3)
  {
    var log := EllipticLog(client, key, ec);
    EllipticInClient(client, key, ec);
    EllipticNotNamed(client, key, ec);
    JwkKids(log, PartKey(client.id, ec.kid), 3);
  }
}
