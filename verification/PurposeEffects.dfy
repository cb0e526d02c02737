/**
 What each purpose message does to the two tables, told from the message and the tables alone: the row of the
 purpose and all its entries say whether some version is active, and which version the message is about.
 */
module PurposeEffects {
  import opened Basics
  import opened TokenKeys
  import opened PlatformModel
  import opened PurposeWriter
  import CachedDecision

  predicate HasActiveVersion(p: Purpose) {
    exists v <- p.versions :: v.state == ActiveVersion
  }

  /** Active while some version is. */
  predicate Fits(state: ItemState, p: Purpose) {
    state == Active <==> HasActiveVersion(p)
  }

  /** The first version that is active or suspended. */
  predicate IsFirstLive(p: Purpose, i: nat) {
    && i < |p.versions| && (p.versions[i].state == ActiveVersion || p.versions[i].state == SuspendedVersion)
    && forall j | 0 <= j < i :: p.versions[j].state == OtherVersion
  }

  predicate HasLive(p: Purpose) {
    exists v <- p.versions :: v.state != OtherVersion
  }

  predicate IsNew(s: Store, p: Purpose, version: nat) {
    p.id in s.platform.purposes ==> s.platform.purposes[p.id].version <= version
  }

  predicate IsEntryOf(pk: TokenPK, p: Purpose) {
    pk.ClientKidPurpose? && pk.purposeId == p.id
  }

  /** At most the row and the entries of the purpose have changed. */
  ghost predicate Elsewhere(s: Store, s': Store, p: Purpose) {
    && s'.platform.agreements == s.platform.agreements && s'.platform.catalog == s.platform.catalog
    && s'.platform.clients == s.platform.clients && s'.platform.purposes - {p.id} == s.platform.purposes - {p.id}
    && s'.tokens.Keys == s.tokens.Keys
    && forall pk <- s.tokens | !IsEntryOf(pk, p) :: s'.tokens[pk] == s.tokens[pk]
  }

  /** The entry's purpose fields: the consumer, whether some version is active, and the version. */
  predicate EntryFits(e: Entry, p: Purpose, versionId: Id) {
    && e.consumerId == Some(p.consumerId) && e.purposeVersionId == Some(versionId)
    && e.purposeState.Some? && Fits(e.purposeState.value, p)
  }

  /** The purpose fields have changed, and no others. */
  predicate EntryRestated(e: Entry, e': Entry, p: Purpose, versionId: Id) {
    && EntryFits(e', p, versionId)
    && e' == e.(consumerId := e'.consumerId, purposeVersionId := e'.purposeVersionId, purposeState := e'.purposeState)
  }

  /** The entry is joined: with the agreement of its consumer and e-service, and that one's descriptor, as far as they
      have rows. */
  predicate EntryJoined(pf: Platform, e: Entry, e': Entry, p: Purpose, versionId: Id) {
    var owner := ConsumerEservice(p.consumerId, p.eserviceId);
    && EntryFits(e', p, versionId) && e'.consumerEservice == Some(owner)
    && e'.clientKind == e.clientKind && e'.publicKey == e.publicKey && e'.asyncExchange == e.asyncExchange
    && if owner !in pf.agreements then
         && e'.agreementId == e.agreementId && e'.agreementState == e.agreementState && e'.producerId == e.producerId
         && e'.descriptor == e.descriptor && SameDescriptorPart(e, e')
       else
         var a := pf.agreements[owner];
         var d := EserviceDescriptor(p.eserviceId, a.descriptorId);
         && e'.agreementId == Some(a.agreementId) && e'.agreementState == Some(a.state)
         && e'.producerId == Some(a.producerId) && e'.descriptor == Some(d)
         && if d !in pf.catalog then SameDescriptorPart(e, e')
            else
              && e'.descriptorState == Some(pf.catalog[d].state) && e'.audience == Some(pf.catalog[d].audience)
              && e'.lifespan == Some(pf.catalog[d].lifespan)
  }

  predicate SameDescriptorPart(e: Entry, e': Entry) {
    e'.descriptorState == e.descriptorState && e'.audience == e.audience && e'.lifespan == e.lifespan
  }

  lemma {:induction false} FirstLiveIs(versions: seq<PurposeVersion>, p: Purpose, i: nat)
    requires i <= |p.versions| && versions == p.versions[i..]
    requires forall j | 0 <= j < i :: p.versions[j].state == OtherVersion
    ensures var live := FindLive(versions);
            && (live.None? <==> !HasLive(p))
            && (live.Some? ==> exists k: nat :: IsFirstLive(p, k) && p.versions[k] == live.value)
    decreases |versions|
  {
    if versions == [] {
      assert forall v <- p.versions :: v.state == OtherVersion;
    } else if versions[0].state == OtherVersion {
      FirstLiveIs(versions[1..], p, i + 1);
    } else {
      assert IsFirstLive(p, i) && p.versions[i] in p.versions;
    }
  }

  /** There is one first live version. */
  lemma FirstLiveIsOne(p: Purpose, i: nat)
    requires IsFirstLive(p, i)
    ensures FindLive(p.versions) == Some(p.versions[i])
  {
    FirstLiveIs(p.versions, p, 0);
    assert p.versions[i] in p.versions;
    var k: nat :| IsFirstLive(p, k) && p.versions[k] == FindLive(p.versions).value;
    assert k == i;
  }

  lemma NotActivatable(s: Store, p: Purpose, version: nat)
    requires !HasLive(p)
    ensures HandleV2(s, PurposeActivated, p, version) == Failed
  {
    FirstLiveIs(p.versions, p, 0);
  }

  /** Activation of the purpose or of a version: a row with the first live version, and joined entries. */
  lemma Activated(s: Store, p: Purpose, i: nat, version: nat, pk: TokenPK)
    requires IsFirstLive(p, i)
    ensures var r := HandleV2(s, PurposeActivated, p, version);
            && r.Ok? && Elsewhere(s, r.value, p)
            && if IsNew(s, p, version) then
                 && p.id in r.value.platform.purposes
                 && (var row := r.value.platform.purposes[p.id];
                     && Fits(row.state, p) && row.purposeVersionId == p.versions[i].id && row.version == version
                     && row.eserviceId == p.eserviceId && row.consumerId == p.consumerId)
                 && (pk in s.tokens && IsEntryOf(pk, p) ==>
                       EntryJoined(s.platform, s.tokens[pk], r.value.tokens[pk], p, p.versions[i].id))
               else r.value == s
  {
    FirstLiveIsOne(p, i);
  }

  /** A new version, suspension or unsuspension: only of a row that is there, and its consumer and e-service stay. */
  lemma VersionChanged(s: Store, versionId: Id, p: Purpose, version: nat, pk: TokenPK)
    ensures var r := HandleV2(s, PurposeVersionChanged(versionId), p, version);
            && r.Ok? && Elsewhere(s, r.value, p)
            && if p.id in s.platform.purposes && IsNew(s, p, version) then
                 && p.id in r.value.platform.purposes
                 && (var row, row' := s.platform.purposes[p.id], r.value.platform.purposes[p.id];
                     && Fits(row'.state, p)
                     && row' == row.(state := row'.state, purposeVersionId := versionId, version := version))
                 && (pk in s.tokens && IsEntryOf(pk, p) ==>
                       EntryRestated(s.tokens[pk], r.value.tokens[pk], p, versionId))
               else r.value == s
  {
  }

  /** Archiving removes the row, whatever its version, and restates the entries. */
  lemma ArchivedPurpose(s: Store, versionId: Id, p: Purpose, version: nat, pk: TokenPK)
    ensures var r := HandleV2(s, PurposeArchived(versionId), p, version);
            && r.Ok? && Elsewhere(s, r.value, p) && p.id !in r.value.platform.purposes
            && (pk in s.tokens && IsEntryOf(pk, p) ==> EntryRestated(s.tokens[pk], r.value.tokens[pk], p, versionId))
  {
  }

  lemma Ignored(s: Store, p: Purpose, version: nat)
    ensures HandleV2(s, OtherV2, p, version) == Ok(s)
  {
  }

  /** After a message that acts, no entry of a purpose without an active version is accepted. */
  lemma AcceptedOnlyIfActive(e: Entry, p: Purpose, versionId: Id)
    requires EntryFits(e, p, versionId)
    ensures CachedDecision.ValidatePlatformState(e) == [] ==> HasActiveVersion(p)
  {
  }
}
