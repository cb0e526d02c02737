/**
 What each authorization message does to the row of its client in platform-states, told from the message and the
 row alone. What it does to the entries is the matter of `EntryEffects`.
 */
module AuthorizationEffects {
  import opened Basics
  import opened TokenKeys
  import opened PlatformModel
  import opened AuthorizationWriter

  /** No row was written by a later message. */
  predicate IsNew(pf: Platform, c: Id, version: nat) {
    c in pf.clients ==> pf.clients[c].version <= version
  }

  predicate Known(pf: Platform, c: Id, version: nat) {
    c in pf.clients && pf.clients[c].version <= version
  }

  /** At most the row of one client has changed. */
  ghost predicate OnlyRow(pf: Platform, pf': Platform, c: Id) {
    SameJoinedRows(pf, pf') && pf'.clients - {c} == pf.clients - {c}
  }

  predicate RowIs(pf: Platform, c: Id, kind: ClientKind, consumerId: Id, purposes: seq<Id>, version: nat) {
    && c in pf.clients && pf.clients[c].kind == kind && pf.clients[c].consumerId == consumerId
    && pf.clients[c].purposesIds == purposes && pf.clients[c].version == version
  }

  /** The row keeps its client, and has the purposes and the version. */
  predicate RowBecomes(pf: Platform, pf': Platform, c: Id, purposes: seq<Id>, version: nat)
    requires c in pf.clients
  {
    RowIs(pf', c, pf.clients[c].kind, pf.clients[c].consumerId, purposes, version)
  }

  // ---- V1 messages ----

  lemma ClientAddedV1(s: Store, client: Client, version: nat)
    ensures var r := HandleV1(s, ClientAdded(client), version);
            && r.Ok? && r.value.tokens == s.tokens && OnlyRow(s.platform, r.value.platform, client.id)
            && if IsNew(s.platform, client.id, version)
               then RowIs(r.value.platform, client.id, client.kind, client.consumerId, client.purposes, version)
               else r.value == s
  {
  }

  /** Messages about keys, of a client that has a row: the row only gets their version. */
  lemma KeysV1(s: Store, event: EventV1, version: nat)
    requires event.KeysAdded? || event.KeyDeleted?
    ensures var r, c := HandleV1(s, event, version), event.clientId;
            && (r.Failed? <==> event.KeysAdded? && event.keys == [])
            && (r.Ok? ==>
                  && OnlyRow(s.platform, r.value.platform, c)
                  && if Known(s.platform, c, version)
                     then RowBecomes(s.platform, r.value.platform, c, s.platform.clients[c].purposesIds, version)
                     else r.value == s)
  {
  }

  /** One more purpose, at the end unless it is there. */
  lemma PurposeAddedV1(s: Store, c: Id, purposeId: Id, version: nat)
    ensures var r := HandleV1(s, ClientPurposeAdded(c, purposeId), version);
            && (r.Failed? <==> purposeId == "")
            && (r.Ok? ==>
                  && OnlyRow(s.platform, r.value.platform, c)
                  && if Known(s.platform, c, version) then
                       var ids := s.platform.clients[c].purposesIds;
                       RowBecomes(s.platform, r.value.platform, c, if purposeId in ids then ids
                         else ids + [purposeId], version)
                     else r.value == s)
  {
  }

  /** One purpose less, the others as they were. */
  predicate IsWithout(ids: seq<Id>, without: seq<Id>, id: Id) {
    && id !in without && (forall x <- without :: x in ids) && (forall x <- ids :: x == id || x in without)
    && (id !in ids ==> without == ids)
  }

  lemma {:induction false} WithoutIs(ids: seq<Id>, id: Id)
    ensures IsWithout(ids, Without(ids, id), id)
  {
    if ids != [] {
      WithoutIs(ids[1..], id);
      assert forall x :: x in ids <==> x == ids[0] || x in ids[1..];
      assert id !in ids[1..] ==> [ids[0]] + ids[1..] == ids;
    }
  }

  lemma PurposeRemovedV1(s: Store, c: Id, purposeId: Id, version: nat)
    ensures var r := HandleV1(s, ClientPurposeRemoved(c, purposeId), version);
            && r.Ok? && OnlyRow(s.platform, r.value.platform, c)
            && if Known(s.platform, c, version) then
                 && c in r.value.platform.clients
                 && var ids := r.value.platform.clients[c].purposesIds;
                    && RowBecomes(s.platform, r.value.platform, c, ids, version)
                    && IsWithout(s.platform.clients[c].purposesIds, ids, purposeId)
               else r.value == s
  {
    if c in s.platform.clients { WithoutIs(s.platform.clients[c].purposesIds, purposeId); }
  }

  /** Deletion does not look at the version. */
  lemma ClientDeletedV1(s: Store, c: Id, version: nat)
    ensures var r := HandleV1(s, ClientDeleted(c), version);
            r.Ok? && OnlyRow(s.platform, r.value.platform, c) && c !in r.value.platform.clients
  {
  }

  // ---- V2 messages ----

  /** The snapshot's first key with the kid, if any, has a public key to store. */
  predicate HasKey(client: Client, kid: Id) {
    exists i: nat | i < |client.keys| :: FirstKey(client, kid, i) && client.keys[i].encodedPem != ""
  }

  predicate FirstKey(client: Client, kid: Id, i: nat) {
    i < |client.keys| && client.keys[i].kid == kid && forall j | 0 <= j < i :: client.keys[j].kid != kid
  }

  lemma {:induction false} FoundFirst(keys: seq<Key>, client: Client, kid: Id, n: nat)
    requires n <= |client.keys| && keys == client.keys[n..] && forall j | 0 <= j < n :: client.keys[j].kid != kid
    ensures var key := FindKey(keys, kid);
            && (key.Some? ==> exists i: nat | i < |client.keys| ::
                 FirstKey(client, kid, i) && client.keys[i] == key.value)
            && (key.None? ==> forall k <- client.keys :: k.kid != kid)
    decreases |keys|
  {
    if keys == [] {
    } else if keys[0].kid == kid {
      assert FirstKey(client, kid, n);
    } else {
      FoundFirst(keys[1..], client, kid, n + 1);
    }
  }

  lemma FirstKeyIs(client: Client, kid: Id)
    ensures var key := FindKey(client.keys, kid); HasKey(client, kid) <==> key.Some? && key.value.encodedPem != ""
  {
    FoundFirst(client.keys, client, kid, 0);
    if HasKey(client, kid) {
      var i: nat :| i < |client.keys| && FirstKey(client, kid, i) && client.keys[i].encodedPem != "";
      assert client.keys[i] in client.keys;
    }
  }

  /** Messages that write the row anew from the snapshot; it never repeats the purposes. */
  lemma SnapshotV2(s: Store, event: EventV2, version: nat)
    requires event.ClientKeyAddedV2? || event.ClientKeyDeletedV2? || event.ClientPurposeAddedV2?
    ensures var r, client := HandleV2(s, event, version), event.client;
            && (r.Failed? <==> event.ClientKeyAddedV2? && !HasKey(client, event.kid))
            && (r.Ok? ==>
                  && OnlyRow(s.platform, r.value.platform, client.id)
                  && if IsNew(s.platform, client.id, version)
                     then RowIs(r.value.platform, client.id, client.kind, client.consumerId, [], version)
                     else r.value == s)
  {
    if event.ClientKeyAddedV2? { FirstKeyIs(event.client, event.kid); }
  }

  lemma PurposeRemovedV2(s: Store, client: Client, purposeId: Id, version: nat)
    ensures var r := HandleV2(s, ClientPurposeRemovedV2(client, purposeId), version);
            && r.Ok? && OnlyRow(s.platform, r.value.platform, client.id)
            && if Known(s.platform, client.id, version)
               then RowBecomes(s.platform, r.value.platform, client.id, [], version)
               else r.value == s
  {
  }

  lemma ClientDeletedIsGoneV2(s: Store, client: Client, version: nat)
    ensures var r := HandleV2(s, ClientDeletedV2(client), version);
            r.Ok? && OnlyRow(s.platform, r.value.platform, client.id) && client.id !in r.value.platform.clients
  {
  }

  /** Messages that the consumers ignore. */
  lemma Ignored(s: Store, version: nat)
    ensures HandleV1(s, OtherV1, version) == Ok(s) && HandleV2(s, OtherV2, version) == Ok(s)
  {
  }
}
