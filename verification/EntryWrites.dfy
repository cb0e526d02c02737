/**
 Entries put by the authorization consumer: each is created from the rows read first, put, and patched
 after the rows are read again. With no other consumer in between, every entry ends as the join.
 */
module EntryWrites {
  import opened Basics
  import opened TokenKeys
  import opened PlatformModel
  import opened AuthorizationWriter
  import opened TokenGenStore

  // ---- puts and second retrievals ----

  /** An entry put by a handler, as the handler holds it in memory. */
  datatype Added = Added(pk: TokenPK, mem: Entry)

  predicate IsCreated(mem: Entry, r: Rows) {
    mem == Create(mem.consumerId, mem.publicKey, r)
  }

  /** The entry is the join, or will be once the second retrieval gets to one of the puts from `i` on. */
  ghost predicate Settles(e: Entry, pk: TokenPK, added: seq<Added>, i: nat, r: Rows) {
    || e == Join(e.publicKey, r)
    || exists k :: i <= k < |added| && added[k].pk == pk && Near(e, added[k].mem, Join(e.publicKey, r))
  }

  ghost predicate SettlesAt(pf: Platform, tokens: Tokens, added: seq<Added>, i: nat, pk: TokenPK) {
    pk.ClientKidPurpose? && pk in tokens && Settles(tokens[pk], pk, added, i, Retrieve(pf, pk.purposeId))
  }

  /** The state of the second retrieval before entry `i`. */
  ghost predicate Pending(pf: Platform, tokens: Tokens, added: seq<Added>, i: nat) {
    forall j {:trigger SettlesAt(pf, tokens, added, i, added[j].pk)} | 0 <= j < |added| ::
      && SettlesAt(pf, tokens, added, i, added[j].pk)
      && IsCreated(added[j].mem, Retrieve(pf, added[j].pk.purposeId))
  }

  lemma RetrieveIsChained(pf: Platform, purposeId: Id)
    ensures Chained(Retrieve(pf, purposeId))
  {
  }

  lemma AfterPut(pf: Platform, tokens: Tokens, added: seq<Added>, pk: TokenPK, x: Option<Id>, pub: string)
    requires Pending(pf, tokens, added, 0) && pk.ClientKidPurpose?
    ensures var mem := Create(x, pub, Retrieve(pf, pk.purposeId));
            Pending(pf, tokens[pk := Stored(mem)], added + [Added(pk, mem)], 0)
  {
    var r := Retrieve(pf, pk.purposeId);
    var mem := Create(x, pub, r);
    var tokens', added' := tokens[pk := Stored(mem)], added + [Added(pk, mem)];
    RetrieveIsChained(pf, pk.purposeId);
    PutIsNear(x, pub, r);
    assert added'[|added|].pk == pk;
    assert SettlesAt(pf, tokens', added', 0, pk);
    forall j | 0 <= j < |added| && added[j].pk != pk ensures SettlesAt(pf, tokens', added', 0, added[j].pk) {
      assert SettlesAt(pf, tokens, added, 0, added[j].pk);
      StillSettles(tokens[added[j].pk], added[j].pk, added, [Added(pk, mem)], Retrieve(pf, added[j].pk.purposeId));
    }
    forall j | 0 <= j < |added'|
      ensures SettlesAt(pf, tokens', added', 0, added'[j].pk)
                && IsCreated(added'[j].mem, Retrieve(pf, added'[j].pk.purposeId))
    {
      if j < |added| { assert SettlesAt(pf, tokens, added, 0, added[j].pk); }
    }
  }

  lemma AfterDelete(pf: Platform, tokens: Tokens, added: seq<Added>, pk: TokenPK)
    requires Pending(pf, tokens, added, 0) && pk.ClientKid?
    ensures Pending(pf, tokens - {pk}, added, 0)
  {
    forall j | 0 <= j < |added|
      ensures SettlesAt(pf, tokens - {pk}, added, 0, added[j].pk)
                && IsCreated(added[j].mem, Retrieve(pf, added[j].pk.purposeId))
    {
      assert SettlesAt(pf, tokens, added, 0, added[j].pk);
    }
  }

  lemma StillSettles(e: Entry, pk: TokenPK, added: seq<Added>, more: seq<Added>, r: Rows)
    requires Settles(e, pk, added, 0, r)
    ensures Settles(e, pk, added + more, 0, r)
  {
    if e != Join(e.publicKey, r) {
      var k :| 0 <= k < |added| && added[k].pk == pk && Near(e, added[k].mem, Join(e.publicKey, r));
      assert (added + more)[k] == added[k];
    }
  }

  /** The second retrieval of put `i` on its own entry. */
  lemma RefreshOne(e: Entry, pk: TokenPK, added: seq<Added>, i: nat, r: Rows)
    requires i < |added| && added[i].pk == pk && Settles(e, pk, added, i, r)
    requires Chained(r) && IsCreated(added[i].mem, r)
    requires forall k | i <= k < |added| && added[k].pk == pk :: IsCreated(added[k].mem, r)
    ensures var e' := SecondRetrieval(e, added[i].mem, r);
            e'.publicKey == e.publicKey && Settles(e', pk, added, i + 1, r)
  {
    var mem, pub := added[i].mem, e.publicKey;
    if e == Join(pub, r) {
      SecondRetrievalReachesJoin(e, mem.(publicKey := pub), mem.consumerId, pub, r);
    } else {
      var k :| i <= k < |added| && added[k].pk == pk && Near(e, added[k].mem, Join(pub, r));
      var last := added[k].mem;
      if k == i {
        SecondRetrievalReachesJoin(e, mem.(publicKey := pub), mem.consumerId, pub, r);
      } else {
        SecondRetrievalStaysNear(e, last.(publicKey := pub), last.consumerId, mem.consumerId, pub, r);
        assert Near(SecondRetrieval(e, mem, r), last, Join(pub, r));
      }
    }
  }

  /** A later write of another entry. */
  lemma SkipOne(e: Entry, pk: TokenPK, added: seq<Added>, i: nat, r: Rows)
    requires i < |added| && added[i].pk != pk && Settles(e, pk, added, i, r)
    ensures Settles(e, pk, added, i + 1, r)
  {
  }

  lemma AfterRefresh(pf: Platform, tokens: Tokens, added: seq<Added>, i: nat)
    requires i < |added| && Pending(pf, tokens, added, i) && SettlesAt(pf, tokens, added, i, added[i].pk)
    ensures var pk := added[i].pk;
            var e := SecondRetrieval(tokens[pk], added[i].mem, Retrieve(pf, pk.purposeId));
            Pending(pf, tokens[pk := e], added, i + 1) && e.publicKey == tokens[pk].publicKey
  {
    var pk := added[i].pk;
    assert SettlesAt(pf, tokens, added, i, pk);
    RetrieveIsChained(pf, pk.purposeId);
    RefreshOne(tokens[pk], pk, added, i, Retrieve(pf, pk.purposeId));
    var tokens' := tokens[pk := SecondRetrieval(tokens[pk], added[i].mem, Retrieve(pf, pk.purposeId))];
    forall j | 0 <= j < |added|
      ensures SettlesAt(pf, tokens', added, i + 1, added[j].pk)
                && IsCreated(added[j].mem, Retrieve(pf, added[j].pk.purposeId))
    {
      assert SettlesAt(pf, tokens, added, i, added[j].pk);
      if added[j].pk != pk {
        SkipOne(tokens[added[j].pk], added[j].pk, added, i, Retrieve(pf, added[j].pk.purposeId));
      }
    }
  }

  /** No entry comes, goes or changes its public key, and only those in `pks` change at all. */
  ghost predicate Refreshed(before: Tokens, now: Tokens, added: seq<Added>) {
    && now.Keys == before.Keys
    && (forall pk <- before :: now[pk].publicKey == before[pk].publicKey)
    && (forall pk <- before :: now[pk] == before[pk] || exists j :: 0 <= j < |added| && added[j].pk == pk)
  }

  /** The second retrieval, entry by entry. */
  method RefreshAll(t: Tables, added: seq<Added>) returns (o: Outcome)
    requires Pending(t.platform, t.tokens, added, 0)
    modifies t
    ensures !o.Threw? && t.platform == old(t.platform) && Refreshed(old(t.tokens), t.tokens, added)
    ensures o.Done? ==> Pending(t.platform, t.tokens, added, |added|)
  {
    for i := 0 to |added|
      invariant t.platform == old(t.platform) && Refreshed(old(t.tokens), t.tokens, added)
      invariant Pending(t.platform, t.tokens, added, i)
    {
      var pk := added[i].pk;
      assert SettlesAt(t.platform, t.tokens, added, i, added[i].pk);
      AfterRefresh(t.platform, t.tokens, added, i);
      var r := Retrieve(t.platform, pk.purposeId);
      :- t.UpdateToken(pk, SecondRetrieval(t.tokens[pk], added[i].mem, r));
    }
    return Done;
  }

  lemma Settled(pf: Platform, tokens: Tokens, added: seq<Added>, j: nat)
    requires Pending(pf, tokens, added, |added|) && j < |added|
    ensures var pk := added[j].pk;
            pk.ClientKidPurpose? && pk in tokens && tokens[pk] == Join(tokens[pk].publicKey, Retrieve(pf, pk.purposeId))
  {
    assert SettlesAt(pf, tokens, added, |added|, added[j].pk);
  }

  // ---- one key, several purposes ----

  function ConsumerOf(given: Option<Id>, r: Rows): Option<Id> {
    if given.Some? then given else if r.purpose.Some? then Some(r.purpose.value.consumerId) else None
  }

  function OwnOfKey(clientId: Id, kid: Id, purposes: seq<Id>): set<TokenPK> {
    CompleteKeys(clientId, {kid}, ToSet(purposes))
  }

  /** The entries of the first purposes of the key have been put. */
  ghost predicate KeyPut(before: Tokens, now: Tokens, pf: Platform, added: seq<Added>,
                         clientId: Id, kid: Id, pem: string, purposes: seq<Id>)
  {
    && |added| <= |purposes| && Pending(pf, now, added, 0)
    && AgreeOutside(before, now, OwnOfKey(clientId, kid, purposes))
    && forall j | 0 <= j < |added| ::
         && added[j].pk == ClientKidPurpose(clientId, kid, purposes[j])
         && added[j].pk in now && now[added[j].pk].publicKey == pem
  }

  lemma PutNextOfKey(before: Tokens, now: Tokens, pf: Platform, added: seq<Added>,
                     clientId: Id, kid: Id, pem: string, purposes: seq<Id>, x: Option<Id>)
    requires KeyPut(before, now, pf, added, clientId, kid, pem, purposes) && |added| < |purposes|
    ensures var pk := ClientKidPurpose(clientId, kid, purposes[|added|]);
            var mem := Create(x, pem, Retrieve(pf, pk.purposeId));
            KeyPut(before, now[pk := Stored(mem)], pf, added + [Added(pk, mem)], clientId, kid, pem, purposes)
  {
    var pk := ClientKidPurpose(clientId, kid, purposes[|added|]);
    AfterPut(pf, now, added, pk, x, pem);
    assert pk in OwnOfKey(clientId, kid, purposes);
  }

  /** One put and one second retrieval per purpose. V1 handlers give the consumer of the client row,
      V2 handlers use that of the purpose row. */
  method AddKey(t: Tables, clientId: Id, kid: Id, pem: string, given: Option<Id>, purposes: seq<Id>)
    returns (o: Outcome)
    modifies t
    ensures !o.Threw? && t.platform == old(t.platform)
    ensures AgreeOutside(old(t.tokens), t.tokens, OwnOfKey(clientId, kid, purposes))
    ensures o.Done? ==> t.tokens == old(t.tokens) + EntriesOfKey(clientId, kid, pem, purposes, t.platform)
  {
    ghost var before := t.tokens;
    var added: seq<Added> := [];
    for i := 0 to |purposes|
      invariant t.platform == old(t.platform) && |added| == i
      invariant KeyPut(before, t.tokens, t.platform, added, clientId, kid, pem, purposes)
    {
      var pk := ClientKidPurpose(clientId, kid, purposes[i]);
      var r := Retrieve(t.platform, purposes[i]);
      PutNextOfKey(before, t.tokens, t.platform, added, clientId, kid, pem, purposes, ConsumerOf(given, r));
      var mem := Create(ConsumerOf(given, r), pem, r);
      :- t.PutToken(pk, mem);
      added := added + [Added(pk, mem)];
    }
    o := RefreshAll(t, added);
    if o.Done? {
      KeyEntriesAreJoined(before, t.tokens, t.platform, added, clientId, kid, pem, purposes);
    }
  }

  lemma KeyEntriesAreJoined(before: Tokens, now: Tokens, pf: Platform, added: seq<Added>,
                            clientId: Id, kid: Id, pem: string, purposes: seq<Id>)
    requires |added| == |purposes| && Pending(pf, now, added, |added|)
    requires AgreeOutside(before, now, CompleteKeys(clientId, {kid}, ToSet(purposes)))
    requires forall j | 0 <= j < |added| :: added[j].pk == ClientKidPurpose(clientId, kid, purposes[j])
    requires forall j | 0 <= j < |added| :: added[j].pk in now && now[added[j].pk].publicKey == pem
    ensures now == before + EntriesOfKey(clientId, kid, pem, purposes, pf)
  {
    var entries := EntriesOfKey(clientId, kid, pem, purposes, pf);
    forall pk: TokenPK ensures Lookup(now, pk) == Lookup(before + entries, pk) {
      if pk in entries {
        var j :| 0 <= j < |purposes| && pk == ClientKidPurpose(clientId, kid, purposes[j]);
        Settled(pf, now, added, j);
      } else {
        assert pk !in CompleteKeys(clientId, {kid}, ToSet(purposes));
      }
    }
    LookupsDecide(now, before + entries);
  }

  lemma LookupsDecide(x: Tokens, y: Tokens)
    requires forall pk: TokenPK :: Lookup(x, pk) == Lookup(y, pk)
    ensures x == y
  {
    forall pk: TokenPK ensures pk in x <==> pk in y { assert Lookup(x, pk) == Lookup(y, pk); }
    forall pk | pk in x ensures x[pk] == y[pk] { assert Lookup(x, pk) == Lookup(y, pk); }
  }

  // ---- the same writes over half-done tables ----

  lemma SamePlus(before: Tokens, now: Tokens, more: Tokens)
    requires AgreeOutside(before, now, more.Keys)
    ensures now + more == before + more
  {
    forall pk: TokenPK ensures Lookup(now + more, pk) == Lookup(before + more, pk) {
      if pk !in more { assert Lookup(now, pk) == Lookup(before, pk); }
    }
    LookupsDecide(now + more, before + more);
  }

  lemma SamePut(before: Tokens, now: Tokens, pk: TokenPK, e: Entry)
    requires AgreeOutside(before, now, {pk})
    ensures now[pk := e] == before[pk := e]
  {
    var now', before' := now[pk := e], before[pk := e];
    forall other: TokenPK ensures Lookup(now', other) == Lookup(before', other) {
      if other != pk { assert Lookup(now, other) == Lookup(before, other); }
    }
    LookupsDecide(now', before');
  }

  lemma SameEntriesOfKey(pf: Platform, pf': Platform, clientId: Id, kid: Id, pem: string, purposes: seq<Id>)
    requires SameJoinedRows(pf, pf')
    ensures EntriesOfKey(clientId, kid, pem, purposes, pf') == EntriesOfKey(clientId, kid, pem, purposes, pf)
  {
  }

  lemma KeyTokensAgain(tokens: Tokens, now: Tokens, pf: Platform, clientId: Id, kid: Id, pem: string, purposes: seq<Id>)
    requires AgreeOutside(tokens, now, OwnOfKey(clientId, kid, purposes))
    ensures now + EntriesOfKey(clientId, kid, pem, purposes, pf)
              == tokens + EntriesOfKey(clientId, kid, pem, purposes, pf)
  {
    var more := EntriesOfKey(clientId, kid, pem, purposes, pf);
    assert more.Keys == OwnOfKey(clientId, kid, purposes);
    SamePlus(tokens, now, more);
  }
}
