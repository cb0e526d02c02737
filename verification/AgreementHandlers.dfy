/**
 The agreement consumer as it runs. A finished handler has the whole-table meaning of its message, and
 handling the message again, after a crash at any write or after a success, still ends in that meaning.
 */
module AgreementHandlers {
  import opened Basics
  import opened PlatformModel
  import opened AgreementWriter
  import opened TokenGenStore

  /** The entries' update that goes with an action on the row. */
  function PatchOf(pf: Platform, a: Agreement, action: Action): Patch
    requires !action.Skip? && !action.Throw?
  {
    if action.Replace? then MovePatch(a, pf) else SetAgreementState(action.state)
  }

  predicate Writes(row: Option<AgreementRow>, action: Action) {
    action.Replace? || ((action.Restate? || action.Retire?) && row.Some?)
  }

  /** The two writes of an action, the row and some of the entries, each done or not. */
  ghost predicate PartlyActed(s: Store, now: Store, a: Agreement, action: Action) {
    var row := Lookup(s.platform.agreements, a.Key());
    if Writes(row, action) then
      && (|| now.platform == s.platform
          || now.platform == SetRow(s.platform, a.Key(), ActOnRow(row, action).value))
      && PartlyPatched(s.tokens, now.tokens, ByAgreement(a.Key()), PatchOf(s.platform, a, action))
    else now == s
  }

  lemma NothingPatched(tokens: Tokens, q: Query, p: Patch)
    ensures PartlyPatched(tokens, tokens, q, p)
  {
    assert tokens == Patched(tokens, p, {});
  }

  lemma MovesAreStable(a: Agreement, pf: Platform, state: ItemState)
    ensures Stable(ByAgreement(a.Key()), MovePatch(a, pf))
    ensures Stable(ByAgreement(a.Key()), SetAgreementState(state))
  {
  }

  /** A message finds the row it wrote itself as it found the row before. */
  lemma DecidesAgainV2(row: Option<AgreementRow>, event: EventV2, a: Agreement, version: nat)
    ensures DecideV2(ActOnRow(row, DecideV2(row, event, a, version)), event, a, version)
              == DecideV2(row, event, a, version)
  {
  }

  lemma DecidesAgainV1(row: Option<AgreementRow>, event: EventV1, a: Agreement, version: nat)
    ensures DecideV1(ActOnRow(row, DecideV1(row, event, a, version)), event, a, version)
              == DecideV1(row, event, a, version)
  {
  }

  lemma ActsAgain(s: Store, now: Store, a: Agreement, action: Action)
    requires PartlyActed(s, now, a, action)
    ensures Act(now, a, action) == Act(s, a, action)
    ensures var row := Lookup(s.platform.agreements, a.Key());
            var row' := Lookup(now.platform.agreements, a.Key());
            row' == row || row' == ActOnRow(row, action)
  {
    if Writes(Lookup(s.platform.agreements, a.Key()), action) {
      MovesAreStable(a, s.platform, Active);
      MovesAreStable(a, s.platform, Inactive);
      PatchingResumes(s.tokens, now.tokens, ByAgreement(a.Key()), PatchOf(s.platform, a, action));
      var row := ActOnRow(Lookup(s.platform.agreements, a.Key()), action);
      assert SetRow(now.platform, a.Key(), row.value) == SetRow(s.platform, a.Key(), row.value);
      assert PatchOf(now.platform, a, action) == PatchOf(s.platform, a, action);
    }
  }

  /** `updateLatestAgreementOnTokenGenStates`, both checks; no other consumer runs in between, so the second
      one finds the descriptor row of the first. */
  method MoveEntries(t: Tables, a: Agreement, paging: Paging) returns (o: Outcome)
    modifies t
    ensures !o.Threw? && t.platform == old(t.platform)
    ensures PartlyPatched(old(t.tokens), t.tokens, ByAgreement(a.Key()), MovePatch(a, t.platform))
    ensures o.Done? ==> t.tokens == PatchAll(old(t.tokens), ByAgreement(a.Key()), MovePatch(a, t.platform))
  {
    MovesAreStable(a, t.platform, Active);
    var found := Lookup(t.platform.catalog, a.Descriptor());
    :- t.UpdateAll(ByAgreement(a.Key()), MovePatch(a, t.platform), paging);
    var again := Lookup(t.platform.catalog, a.Descriptor());
    if again.Some? && (found.None? || again.value.state != found.value.state) {
      assert false;
    }
    return Done;
  }

  method ActOn(t: Tables, a: Agreement, action: Action, paging: Paging) returns (o: Outcome)
    requires !action.Throw?
    requires Writes(Lookup(t.platform.agreements, a.Key()), action) || action.Skip?
    modifies t
    ensures !o.Threw? && PartlyActed(old(t.Now()), t.Now(), a, action)
    ensures o.Done? ==> Act(old(t.Now()), a, action) == Ok(t.Now())
  {
    var key := a.Key();
    var row := ActOnRow(Lookup(t.platform.agreements, key), action);
    if action.Replace? {
      NothingPatched(t.tokens, ByAgreement(key), MovePatch(a, t.platform));
      :- t.WritePlatform(SetRow(t.platform, key, row.value));
      o := MoveEntries(t, a, paging);
    } else if action.Restate? {
      MovesAreStable(a, t.platform, action.state);
      NothingPatched(t.tokens, ByAgreement(key), SetAgreementState(action.state));
      :- t.WritePlatform(SetRow(t.platform, key, row.value));
      o := t.UpdateAll(ByAgreement(key), SetAgreementState(action.state), paging);
    } else if action.Retire? {
      MovesAreStable(a, t.platform, action.state);
      :- t.UpdateAll(ByAgreement(key), SetAgreementState(action.state), paging);
      o := t.WritePlatform(SetRow(t.platform, key, row.value));
    } else {
      o := Done;
    }
  }

  lemma DecisionsWrite(row: Option<AgreementRow>, v2: EventV2, v1: EventV1, a: Agreement, version: nat)
    ensures var action := DecideV2(row, v2, a, version); action.Skip? || action.Throw? || Writes(row, action)
    ensures var action := DecideV1(row, v1, a, version); action.Skip? || Writes(row, action)
  {
  }

  method HandleMessageV2(t: Tables, event: EventV2, a: Agreement, version: nat, paging: Paging) returns (o: Outcome)
    modifies t
    ensures o.Done? ==> HandleV2(old(t.Now()), event, a, version) == Ok(t.Now())
    ensures o.Threw? ==> HandleV2(old(t.Now()), event, a, version).Failed? && t.Now() == old(t.Now())
    ensures HandleV2(t.Now(), event, a, version) == HandleV2(old(t.Now()), event, a, version)
  {
    var row := Lookup(t.platform.agreements, a.Key());
    var action := DecideV2(row, event, a, version);
    DecisionsWrite(row, event, OtherV1, a, version);
    if action.Throw? { return Threw; }
    o := ActOn(t, a, action, paging);
    ActsAgain(old(t.Now()), t.Now(), a, action);
    DecidesAgainV2(row, event, a, version);
  }

  method HandleMessageV1(t: Tables, event: EventV1, a: Agreement, version: nat, paging: Paging) returns (o: Outcome)
    modifies t
    ensures !o.Threw?
    ensures o.Done? ==> HandleV1(old(t.Now()), event, a, version) == Ok(t.Now())
    ensures HandleV1(t.Now(), event, a, version) == HandleV1(old(t.Now()), event, a, version)
  {
    var row := Lookup(t.platform.agreements, a.Key());
    var action := DecideV1(row, event, a, version);
    DecisionsWrite(row, EventV2.OtherV2, event, a, version);
    o := ActOn(t, a, action, paging);
    ActsAgain(old(t.Now()), t.Now(), a, action);
    DecidesAgainV1(row, event, a, version);
  }

  // ---- V1 AgreementDeleted ----

  function WithAgreementId(pf: Platform, id: Id): set<ConsumerEservice> {
    set k | k in pf.agreements && pf.agreements[k].agreementId == id
  }

  /** The rows once those in `finished` have been retired. */
  function Retired(pf: Platform, version: nat, finished: set<ConsumerEservice>): Platform {
    pf.(agreements := map k | k in pf.agreements ::
          if k in finished then pf.agreements[k].(state := Inactive, version := version) else pf.agreements[k])
  }

  ghost predicate PartlyRetired(pf: Platform, now: Platform, id: Id, version: nat) {
    exists finished :: finished <= WithAgreementId(pf, id) && now == Retired(pf, version, finished)
  }

  lemma RetireOne(pf: Platform, version: nat, finished: set<ConsumerEservice>, k: ConsumerEservice)
    requires k in pf.agreements
    ensures var now := Retired(pf, version, finished);
            SetRow(now, k, now.agreements[k].(state := Inactive, version := version))
              == Retired(pf, version, finished + {k})
  {
  }

  lemma DeletesAgain(s: Store, now: Store, id: Id, version: nat)
    requires PartlyRetired(s.platform, now.platform, id, version)
    requires PartlyPatched(s.tokens, now.tokens, ByAgreementId(id), SetAgreementState(Inactive))
    ensures DeleteV1(now, id, version) == DeleteV1(s, id, version)
  {
    assert Stable(ByAgreementId(id), SetAgreementState(Inactive));
    PatchingResumes(s.tokens, now.tokens, ByAgreementId(id), SetAgreementState(Inactive));
  }

  method RetirePage(t: Tables, id: Id, version: nat, page: set<ConsumerEservice>,
                    ghost pf: Platform, ghost finished: set<ConsumerEservice>)
    returns (o: Outcome)
    requires finished <= WithAgreementId(pf, id) && t.platform == Retired(pf, version, finished)
    requires page <= WithAgreementId(pf, id)
    modifies t
    ensures !o.Threw? && t.tokens == old(t.tokens) && PartlyRetired(pf, t.platform, id, version)
    ensures o.Done? ==> t.platform == Retired(pf, version, finished + page)
  {
    var pending := page;
    while pending != {}
      invariant pending <= page && t.tokens == old(t.tokens)
      invariant t.platform == Retired(pf, version, finished + (page - pending))
    {
      var k :| k in pending;
      RetireOne(pf, version, finished + (page - pending), k);
      assert finished + (page - (pending - {k})) == finished + (page - pending) + {k};
      :- t.WritePlatform(SetRow(t.platform, k, t.platform.agreements[k].(state := Inactive, version := version)));
      pending := pending - {k};
    }
    assert finished + (page - pending) == finished + page;
    return Done;
  }

  /** `updateAgreementStateInPlatformStatesV1`: a scan of platform-states. Keys that a later page would
      hold belong to the last one. */
  method RetireRows(t: Tables, id: Id, version: nat, pageOf: ConsumerEservice -> nat, last: nat) returns (o: Outcome)
    modifies t
    ensures !o.Threw? && t.tokens == old(t.tokens) && PartlyRetired(old(t.platform), t.platform, id, version)
    ensures o.Done? ==> t.platform == DeleteV1(old(t.Now()), id, version).platform
  {
    ghost var pf := t.platform;
    ghost var finished: set<ConsumerEservice> := {};
    var n := 0;
    while n <= last
      invariant n <= last + 1 && t.tokens == old(t.tokens) && t.platform == Retired(pf, version, finished)
      invariant finished == set k | k in WithAgreementId(pf, id) && (pageOf(k) < n || n > last)
    {
      assert WithAgreementId(t.platform, id) == WithAgreementId(pf, id);
      var page := set k | k in WithAgreementId(t.platform, id) && (pageOf(k) == n || (n == last && pageOf(k) > n));
      :- RetirePage(t, id, version, page, pf, finished);
      finished := finished + page;
      n := n + 1;
    }
    assert finished == WithAgreementId(pf, id);
    return Done;
  }

  method HandleDeletionV1(t: Tables, id: Id, version: nat, pageOf: ConsumerEservice -> nat, last: nat, paging: Paging)
    returns (o: Outcome)
    modifies t
    ensures !o.Threw?
    ensures o.Done? ==> t.Now() == DeleteV1(old(t.Now()), id, version)
    ensures DeleteV1(t.Now(), id, version) == DeleteV1(old(t.Now()), id, version)
  {
    NothingPatched(t.tokens, ByAgreementId(id), SetAgreementState(Inactive));
    o := RetireRows(t, id, version, pageOf, last);
    if o.Done? {
      assert Stable(ByAgreementId(id), SetAgreementState(Inactive));
      o := t.UpdateAll(ByAgreementId(id), SetAgreementState(Inactive), paging);
    }
    DeletesAgain(old(t.Now()), t.Now(), id, version);
  }
}
