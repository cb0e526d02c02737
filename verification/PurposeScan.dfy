/**
 V1 ClientPurposeAdded scans the table into which it inserts. A page may hold entries that earlier pages
 put, and the kids already seen are forgotten from page to page; the result is nevertheless that of one
 whole-table update, for every split into pages, and a run that dies can be started again.
 */
module PurposeScan {
  import opened Basics
  import opened TokenKeys
  import opened PlatformModel
  import opened AuthorizationWriter
  import opened TokenGenStore
  import opened EntryWrites

  /** What the handler was asked: the client, its new purpose, and whether that is the only one. */
  datatype Request = Request(clientId: Id, purposeId: Id, only: bool)
  {
    predicate Scans(pk: TokenPK) { Hits(ContainsText(clientId), pk) }

    function Target(kid: Id): TokenPK { ClientKidPurpose(clientId, kid, purposeId) }
  }

  /** The kid determines the public key, as a key thumbprint does. */
  ghost predicate KidsAgree(tokens: Tokens, clientId: Id) {
    forall x <- tokens, y <- tokens ::
      Hits(ContainsText(clientId), x) && Hits(ContainsText(clientId), y) && x.kid == y.kid ==>
        tokens[x].publicKey == tokens[y].publicKey
  }

  lemma TargetIsScanned(q: Request, kid: Id)
    ensures q.Scans(q.Target(kid))
  {
    var rest := "#" + (kid + "#" + q.purposeId);
    var s := Render(q.Target(kid));
    var i := |CLIENT_KID_PURPOSE| + 1;
    assert kid + Tail(q.Target(kid)) == kid + "#" + q.purposeId;
    assert s == CLIENT_KID_PURPOSE + "#" + (q.clientId + rest);
    assert s[i..] == q.clientId + rest;
    assert q.clientId <= s[i..];
  }

  predicate Doomed(q: Request, pk: TokenPK) {
    q.only && pk.ClientKid? && q.Scans(pk)
  }

  /** One key of a half-done table: targets come, doomed partial entries go, the others stay. */
  ghost predicate HalfAt(q: Request, before: Tokens, now: Tokens, pk: TokenPK) {
    if pk == q.Target(pk.kid) && pk.kid in ScannedKids(before, q.clientId) then true
    else if Doomed(q, pk) then Lookup(now, pk) == None || Lookup(now, pk) == Lookup(before, pk)
    else Lookup(now, pk) == Lookup(before, pk)
  }

  ghost predicate PemsStay(q: Request, before: Tokens, now: Tokens) {
    forall pk <- now | q.Scans(pk) ::
      pk.kid in ScannedKids(before, q.clientId) && now[pk].publicKey == PemOf(before, q.clientId, pk.kid)
  }

  /** Any state that the handler can leave behind. */
  ghost predicate Half(q: Request, before: Tokens, now: Tokens, agree: bool) {
    && (forall pk: TokenPK :: HalfAt(q, before, now, pk))
    && ScannedKids(now, q.clientId) == ScannedKids(before, q.clientId)
    && (agree ==> PemsStay(q, before, now))
  }

  lemma NotYetHalf(q: Request, before: Tokens, agree: bool)
    requires agree ==> KidsAgree(before, q.clientId)
    ensures Half(q, before, before, agree)
  {
    forall pk <- before | q.Scans(pk) ensures pk.kid in ScannedKids(before, q.clientId) {}
  }

  lemma PutKeepsHalf(q: Request, before: Tokens, now: Tokens, agree: bool, kid: Id, e: Entry)
    requires Half(q, before, now, agree) && kid in ScannedKids(before, q.clientId)
    requires agree ==> e.publicKey == PemOf(before, q.clientId, kid)
    ensures Half(q, before, now[q.Target(kid) := e], agree)
  {
    TargetIsScanned(q, kid);
    var now' := now[q.Target(kid) := e];
    forall pk: TokenPK ensures HalfAt(q, before, now', pk) {
      assert HalfAt(q, before, now, pk);
    }
    ScannedAfterPut(now, q, kid, e);
  }

  lemma ScannedAfterPut(now: Tokens, q: Request, kid: Id, e: Entry)
    requires kid in ScannedKids(now, q.clientId)
    ensures ScannedKids(now[q.Target(kid) := e], q.clientId) == ScannedKids(now, q.clientId)
  {
    var now' := now[q.Target(kid) := e];
    forall k | k in ScannedKids(now, q.clientId) ensures k in ScannedKids(now', q.clientId) {
      var pk :| pk in now && q.Scans(pk) && pk.kid == k;
      assert pk in now' && q.Scans(pk);
    }
    TargetIsScanned(q, kid);
  }

  lemma DeleteKeepsHalf(q: Request, before: Tokens, now: Tokens, agree: bool, pk: TokenPK)
    requires Half(q, before, now, agree) && Doomed(q, pk) && q.Target(pk.kid) in now
    ensures Half(q, before, now - {pk}, agree)
  {
    var now' := now - {pk};
    forall x: TokenPK ensures HalfAt(q, before, now', x) {
      assert HalfAt(q, before, now, x);
    }
    forall k | k in ScannedKids(now, q.clientId) ensures k in ScannedKids(now', q.clientId) {
      var x :| x in now && q.Scans(x) && x.kid == k;
      TargetIsScanned(q, pk.kid);
      if x == pk { assert q.Target(pk.kid) in now'; } else { assert x in now'; }
    }
  }

  // ---- running again ----

  lemma SamePems(q: Request, before: Tokens, now: Tokens, agree: bool, kid: Id)
    requires Half(q, before, now, agree) && agree && kid in ScannedKids(before, q.clientId)
    ensures PemOf(now, q.clientId, kid) == PemOf(before, q.clientId, kid)
  {
    forall pk | pk in now && Hits(ContainsText(q.clientId), pk) && pk.kid == kid
      ensures now[pk].publicKey == PemOf(before, q.clientId, kid)
    {
      assert q.Scans(pk);
    }
  }

  /** The table after the handler, key by key. */
  lemma AddPurposeAt(q: Request, tokens: Tokens, pf: Platform, pk: TokenPK)
    ensures Lookup(AddPurpose(tokens, q.clientId, q.purposeId, q.only, pf), pk) ==
            if pk == q.Target(pk.kid) && pk.kid in ScannedKids(tokens, q.clientId) then
              Some(Join(PemOf(tokens, q.clientId, pk.kid), Retrieve(pf, q.purposeId)))
            else if Doomed(q, pk) then None
            else Lookup(tokens, pk)
  {
  }

  lemma AddsAgain(q: Request, before: Tokens, now: Tokens, agree: bool, pf: Platform)
    requires Half(q, before, now, agree) && agree
    ensures AddPurpose(now, q.clientId, q.purposeId, q.only, pf)
              == AddPurpose(before, q.clientId, q.purposeId, q.only, pf)
  {
    var x := AddPurpose(now, q.clientId, q.purposeId, q.only, pf);
    var y := AddPurpose(before, q.clientId, q.purposeId, q.only, pf);
    forall pk: TokenPK ensures Lookup(x, pk) == Lookup(y, pk) {
      assert HalfAt(q, before, now, pk);
      AddPurposeAt(q, before, pf, pk);
      AddPurposeAt(q, now, pf, pk);
      if pk.kid in ScannedKids(before, q.clientId) { SamePems(q, before, now, agree, pk.kid); }
    }
    LookupsDecide(x, y);
  }

  lemma HalfKeepsKids(q: Request, before: Tokens, now: Tokens)
    requires Half(q, before, now, true)
    ensures KidsAgree(now, q.clientId)
  {
    forall x, y | x in now && y in now && Hits(ContainsText(q.clientId), x) && Hits(ContainsText(q.clientId), y)
      && x.kid == y.kid
      ensures now[x].publicKey == now[y].publicKey
    {
      assert q.Scans(x) && q.Scans(y);
    }
  }

  // ---- the scan ----

  predicate WasAdded(added: seq<Added>, pk: TokenPK) {
    exists j :: 0 <= j < |added| && added[j].pk == pk
  }

  /** The entry's kid has its complete entry, and the entry itself is gone if it was to go. */
  predicate Handled(q: Request, now: Tokens, added: seq<Added>, pk: TokenPK) {
    WasAdded(added, q.Target(pk.kid)) && (Doomed(q, pk) ==> pk !in now)
  }

  predicate IsTarget(q: Request, before: Tokens, pk: TokenPK) {
    pk == q.Target(pk.kid) && pk.kid in ScannedKids(before, q.clientId)
  }

  ghost predicate AddedFrom(q: Request, before: Tokens, added: seq<Added>) {
    forall j {:trigger IsTarget(q, before, added[j].pk)} | 0 <= j < |added| :: IsTarget(q, before, added[j].pk)
  }

  /** `handled` are the entries done so far; every other scanned entry is still there to be found. */
  ghost predicate Progress(q: Request, before: Tokens, now: Tokens, agree: bool, pf: Platform, added: seq<Added>,
                           handled: set<TokenPK>) {
    && Half(q, before, now, agree) && Pending(pf, now, added, 0) && AddedFrom(q, before, added)
    && (forall pk <- handled :: Handled(q, now, added, pk))
    && (forall pk {:trigger pk in before} | pk in before && q.Scans(pk) && pk !in handled :: pk in now)
  }

  lemma HandledStays(q: Request, now: Tokens, added: seq<Added>, pk: TokenPK, kid: Id, mem: Entry)
    requires Handled(q, now, added, pk)
    ensures Handled(q, now[q.Target(kid) := Stored(mem)], added + [Added(q.Target(kid), mem)], pk)
  {
    var j :| 0 <= j < |added| && added[j].pk == q.Target(pk.kid);
    assert (added + [Added(q.Target(kid), mem)])[j] == added[j];
  }

  lemma PutProgress(q: Request, before: Tokens, now: Tokens, agree: bool, pf: Platform, added: seq<Added>,
                    handled: set<TokenPK>,
                    kid: Id, x: Option<Id>, pub: string)
    requires Progress(q, before, now, agree, pf, added, handled) && kid in ScannedKids(before, q.clientId)
    requires agree ==> pub == PemOf(before, q.clientId, kid)
    ensures var mem := Create(x, pub, Retrieve(pf, q.purposeId));
            var added' := added + [Added(q.Target(kid), mem)];
            Progress(q, before, now[q.Target(kid) := Stored(mem)], agree, pf, added', handled)
              && WasAdded(added', q.Target(kid))
  {
    var mem := Create(x, pub, Retrieve(pf, q.purposeId));
    var added' := added + [Added(q.Target(kid), mem)];
    var now' := now[q.Target(kid) := Stored(mem)];
    AfterPut(pf, now, added, q.Target(kid), x, pub);
    PutKeepsHalf(q, before, now, agree, kid, Stored(mem));
    assert added'[|added|].pk == q.Target(kid);
    forall pk | pk in handled ensures Handled(q, now', added', pk) {
      HandledStays(q, now, added, pk, kid, mem);
    }
    assert forall pk <- before | q.Scans(pk) && pk !in handled :: pk in now';
  }

  lemma ItemProgress(q: Request, before: Tokens, now: Tokens, agree: bool, pf: Platform, added: seq<Added>,
                     handled: set<TokenPK>, pk: TokenPK)
    requires Progress(q, before, now, agree, pf, added, handled) && WasAdded(added, q.Target(pk.kid)) && q.Scans(pk)
    ensures var now' := if Doomed(q, pk) then now - {pk} else now;
            Progress(q, before, now', agree, pf, added, handled + {pk})
  {
    if Doomed(q, pk) {
      var j :| 0 <= j < |added| && added[j].pk == q.Target(pk.kid);
      assert SettlesAt(pf, now, added, 0, added[j].pk);
      DeleteKeepsHalf(q, before, now, agree, pk);
      AfterDelete(pf, now, added, pk);
      forall x | x in handled ensures Handled(q, now - {pk}, added, x) {
        assert Handled(q, now, added, x);
      }
    }
  }

  /** Items of a page, with the attributes that the page was read with. */
  ghost predicate ItemOf(q: Request, before: Tokens, page: Tokens, agree: bool, pk: TokenPK)
    requires pk in page
  {
    && q.Scans(pk) && pk.kid in ScannedKids(before, q.clientId)
    && (agree ==> page[pk].publicKey == PemOf(before, q.clientId, pk.kid))
  }

  ghost predicate PageOf(q: Request, before: Tokens, page: Tokens, agree: bool) {
    forall pk {:trigger ItemOf(q, before, page, agree, pk)} | pk in page :: ItemOf(q, before, page, agree, pk)
  }

  /** One item: its target is put unless `skip`, and a partial entry is deleted when the purpose is the only one. */
  method ScanItem(t: Tables, q: Request, pk: TokenPK, page: Tokens, skip: bool, already: seq<Added>,
                  ghost before: Tokens, ghost agree: bool, ghost handled: set<TokenPK>)
    returns (o: Outcome, added: seq<Added>)
    requires Progress(q, before, t.tokens, agree, t.platform, already, handled)
    requires pk in page && ItemOf(q, before, page, agree, pk) && (skip ==> WasAdded(already, q.Target(pk.kid)))
    modifies t
    ensures !o.Threw? && t.platform == old(t.platform) && Half(q, before, t.tokens, agree)
    ensures o.Done? ==> Progress(q, before, t.tokens, agree, t.platform, added, handled + {pk})
    ensures o.Done? ==> already <= added && WasAdded(added, q.Target(pk.kid))
  {
    added := already;
    if !skip {
      PutProgress(q, before, t.tokens, agree, t.platform, added, handled, pk.kid, page[pk].consumerId,
        page[pk].publicKey);
      var mem := Create(page[pk].consumerId, page[pk].publicKey, Retrieve(t.platform, q.purposeId));
      o := t.PutToken(q.Target(pk.kid), mem);
      if !o.Done? { return; }
      added := added + [Added(q.Target(pk.kid), mem)];
    }
    ItemProgress(q, before, t.tokens, agree, t.platform, added, handled, pk);
    if q.only && pk.ClientKid? {
      o := t.DeleteToken(pk);
      if !o.Done? { return; }
    }
    o := Done;
  }

  ghost predicate AllAddedFor(q: Request, added: seq<Added>, kids: set<Id>) {
    forall kid {:trigger kid in kids} | kid in kids :: WasAdded(added, q.Target(kid))
  }

  lemma StillAdded(q: Request, added: seq<Added>, more: seq<Added>, kids: set<Id>, kid: Id)
    requires added <= more && AllAddedFor(q, added, kids) && WasAdded(more, q.Target(kid))
    ensures AllAddedFor(q, more, kids + {kid})
  {
    forall k | k in kids ensures WasAdded(more, q.Target(k)) {
      var j :| 0 <= j < |added| && added[j].pk == q.Target(k);
      assert more[j].pk == q.Target(k);
    }
  }

  /** The items of one page, one by one: all are put when the purpose is the only one, otherwise one per kid. */
  method ScanPage(t: Tables, q: Request, page: Tokens, already: seq<Added>,
                  ghost before: Tokens, ghost agree: bool, ghost handled: set<TokenPK>)
    returns (o: Outcome, added: seq<Added>)
    requires Progress(q, before, t.tokens, agree, t.platform, already, handled) && PageOf(q, before, page, agree)
    modifies t
    ensures !o.Threw? && t.platform == old(t.platform) && Half(q, before, t.tokens, agree)
    ensures o.Done? ==> Progress(q, before, t.tokens, agree, t.platform, added, handled + page.Keys)
  {
    added := already;
    ghost var finished := handled;
    var seenKids: set<Id> := {};
    var pending := page.Keys;
    while pending != {}
      invariant pending <= page.Keys && finished == handled + (page.Keys - pending)
      invariant t.platform == old(t.platform) && Progress(q, before, t.tokens, agree, t.platform, added, finished)
      invariant AllAddedFor(q, added, seenKids)
    {
      var pk :| pk in pending;
      assert ItemOf(q, before, page, agree, pk);
      ghost var unseen := added;
      var skip := !q.only && pk.kid in seenKids;
      assert skip ==> WasAdded(added, q.Target(pk.kid));
      o, added := ScanItem(t, q, pk, page, skip, added, before, agree, finished);
      if !o.Done? { return; }
      assert finished + {pk} == handled + (page.Keys - (pending - {pk}));
      StillAdded(q, unseen, added, seenKids, pk.kid);
      seenKids, pending, finished := seenKids + {pk.kid}, pending - {pk}, finished + {pk};
    }
    assert finished == handled + page.Keys;
    o := Done;
  }

  /** `upsertTokenGenStatesConsumerClientsV1` and the second retrieval of what it added. */
  /** The pages before `n` are done. */
  ghost predicate PagesDone(q: Request, before: Tokens, paging: Paging, n: nat, handled: set<TokenPK>) {
    forall pk <- before | q.Scans(pk) && paging.Index(pk) < n :: pk in handled
  }

  lemma PageDone(q: Request, before: Tokens, now: Tokens, agree: bool, pf: Platform, added: seq<Added>,
                 handled: set<TokenPK>, paging: Paging, n: nat)
    requires Progress(q, before, now, agree, pf, added, handled) && PagesDone(q, before, paging, n, handled)
    ensures PagesDone(q, before, paging, n + 1,
                      handled + set pk | pk in now && q.Scans(pk) && paging.Index(pk) == n)
  {
  }

  lemma ScanDone(q: Request, before: Tokens, now: Tokens, agree: bool, pf: Platform, added: seq<Added>,
                 handled: set<TokenPK>, paging: Paging)
    requires Progress(q, before, now, agree, pf, added, handled)
    requires PagesDone(q, before, paging, paging.last + 1, handled)
    ensures forall pk <- before | q.Scans(pk) :: Handled(q, now, added, pk)
  {
  }

  method AddToScanned(t: Tables, q: Request, paging: Paging) returns (o: Outcome)
    modifies t
    ensures !o.Threw? && t.platform == old(t.platform)
              && Half(q, old(t.tokens), t.tokens, KidsAgree(old(t.tokens), q.clientId))
    ensures o.Done? && KidsAgree(old(t.tokens), q.clientId) ==>
              t.tokens == AddPurpose(old(t.tokens), q.clientId, q.purposeId, q.only, t.platform)
  {
    ghost var before := t.tokens;
    ghost var handled: set<TokenPK> := {};
    var added: seq<Added> := [];
    ghost var agree := KidsAgree(before, q.clientId);
    NotYetHalf(q, before, agree);
    var n := 0;
    while n <= paging.last
      invariant n <= paging.last + 1 && t.platform == old(t.platform)
      invariant Progress(q, before, t.tokens, agree, t.platform, added, handled)
      invariant PagesDone(q, before, paging, n, handled)
    {
      var page := map pk | pk in t.tokens && q.Scans(pk) && paging.Index(pk) == n :: t.tokens[pk];
      PageIsScanned(q, before, t.tokens, agree, page);
      PageDone(q, before, t.tokens, agree, t.platform, added, handled, paging, n);
      assert page.Keys == set pk | pk in t.tokens && q.Scans(pk) && paging.Index(pk) == n;
      o, added := ScanPage(t, q, page, added, before, agree, handled);
      if !o.Done? { return; }
      handled := handled + page.Keys;
      n := n + 1;
    }
    ghost var mid := t.tokens;
    ScanDone(q, before, mid, agree, t.platform, added, handled, paging);
    o := RefreshAll(t, added);
    RefreshKeepsHalf(q, before, mid, t.tokens, agree, added);
    if o.Done? && agree {
      AllAdded(q, before, t.tokens, agree, t.platform, added);
    }
  }

  lemma PageIsScanned(q: Request, before: Tokens, now: Tokens, agree: bool, page: Tokens)
    requires Half(q, before, now, agree) && forall pk <- page :: q.Scans(pk) && pk in now && page[pk] == now[pk]
    ensures PageOf(q, before, page, agree)
  {
    forall pk | pk in page ensures ItemOf(q, before, page, agree, pk) {
      assert pk.kid in ScannedKids(now, q.clientId);
    }
  }

  lemma RefreshKeepsHalf(q: Request, before: Tokens, mid: Tokens, now: Tokens, agree: bool, added: seq<Added>)
    requires Half(q, before, mid, agree) && Refreshed(mid, now, added) && AddedFrom(q, before, added)
    ensures Half(q, before, now, agree)
  {
    assert ScannedKids(now, q.clientId) == ScannedKids(mid, q.clientId);
    forall pk: TokenPK ensures HalfAt(q, before, now, pk) {
      assert HalfAt(q, before, mid, pk);
      if Lookup(now, pk) != Lookup(mid, pk) {
        var j :| 0 <= j < |added| && added[j].pk == pk;
        assert IsTarget(q, before, added[j].pk);
      }
    }
  }

  lemma AllAdded(q: Request, before: Tokens, now: Tokens, agree: bool, pf: Platform, added: seq<Added>)
    requires Half(q, before, now, agree) && Pending(pf, now, added, |added|) && agree
    requires forall pk <- before | q.Scans(pk) :: Handled(q, now, added, pk)
    ensures now == AddPurpose(before, q.clientId, q.purposeId, q.only, pf)
  {
    var full := AddPurpose(before, q.clientId, q.purposeId, q.only, pf);
    forall pk: TokenPK ensures Lookup(now, pk) == Lookup(full, pk) {
      assert HalfAt(q, before, now, pk);
      AddPurposeAt(q, before, pf, pk);
      if pk == q.Target(pk.kid) && pk.kid in ScannedKids(before, q.clientId) {
        var x :| x in before && q.Scans(x) && x.kid == pk.kid;
        assert Handled(q, now, added, x);
        var j :| 0 <= j < |added| && added[j].pk == pk;
        Settled(pf, now, added, j);
        TargetIsScanned(q, pk.kid);
      } else if Doomed(q, pk) && pk in before {
        assert Handled(q, now, added, pk);
      }
    }
    LookupsDecide(now, full);
  }
}
