/**
 What each agreement message does to the two tables, told from the message and the tables alone: when it acts at
 all, what the row of its consumer and e-service holds afterwards, and what their entries hold.
 */
module AgreementEffects {
  import opened Basics
  import opened TokenKeys
  import opened PlatformModel
  import opened AgreementWriter
  import CachedDecision

  function KeyOf(a: Agreement): ConsumerEservice {
    ConsumerEservice(a.consumerId, a.eserviceId)
  }

  function DescriptorOf(a: Agreement): EserviceDescriptor {
    EserviceDescriptor(a.eserviceId, a.descriptorId)
  }

  /** The stamp by which agreements are compared: of the upgrade, or else the activation, or else the creation. */
  predicate IsStamp(a: Agreement, t: int) {
    || a.upgrade == Some(t)
    || (a.upgrade == None && a.activation == Some(t))
    || (a.upgrade == None && a.activation == None && a.createdAt == t)
  }

  /** The row, if any, is not of a later agreement. */
  predicate IsLatestAt(s: Store, a: Agreement, t: int) {
    KeyOf(a) in s.platform.agreements ==> s.platform.agreements[KeyOf(a)].timestamp <= t
  }

  /** The row, if any, was not written by a later message about the same agreement. */
  predicate IsNew(s: Store, a: Agreement, version: nat) {
    KeyOf(a) in s.platform.agreements ==>
      var row := s.platform.agreements[KeyOf(a)]; row.agreementId == a.id ==> row.version <= version
  }

  /** Active for an active agreement, inactive for any other. */
  predicate Fits(state: ItemState, a: Agreement) {
    state == Active <==> a.state == ActiveAgreement
  }

  predicate EntryFits(e: Entry, a: Agreement) {
    e.agreementState.Some? && Fits(e.agreementState.value, a)
  }

  /** At most the agreement row of the key has changed. */
  predicate OnlyRow(pf: Platform, pf': Platform, key: ConsumerEservice) {
    && pf'.purposes == pf.purposes && pf'.catalog == pf.catalog && pf'.clients == pf.clients
    && pf'.agreements - {key} == pf.agreements - {key}
  }

  /** The entry names the agreement and its descriptor, and repeats the descriptor's row if there is one. */
  predicate EntryMoved(pf: Platform, e: Entry, e': Entry, a: Agreement) {
    && EntryFits(e', a)
    && e' == e.(agreementId := Some(a.id), agreementState := e'.agreementState, producerId := Some(a.producerId),
                descriptor := Some(DescriptorOf(a)), descriptorState := e'.descriptorState, audience := e'.audience,
                lifespan := e'.lifespan)
    && if DescriptorOf(a) in pf.catalog then
         var row := pf.catalog[DescriptorOf(a)];
         e'.descriptorState == Some(row.state) && e'.audience == Some(row.audience) && e'.lifespan == Some(row.lifespan)
       else e'.descriptorState == e.descriptorState && e'.audience == e.audience && e'.lifespan == e.lifespan
  }

  predicate EntryRestated(e: Entry, e': Entry, a: Agreement) {
    EntryFits(e', a) && e' == e.(agreementState := e'.agreementState)
  }

  /** The row becomes the agreement's, stamped `t`, and all entries of the consumer and e-service move to it. */
  ghost predicate Moved(s: Store, s': Store, a: Agreement, t: int, version: nat) {
    var key := KeyOf(a);
    && OnlyRow(s.platform, s'.platform, key) && key in s'.platform.agreements
    && (var row := s'.platform.agreements[key];
        && row.agreementId == a.id && row.timestamp == t && row.version == version
        && row.descriptorId == a.descriptorId && row.producerId == a.producerId && Fits(row.state, a))
    && s'.tokens.Keys == s.tokens.Keys
    && forall pk <- s.tokens ::
         if s.tokens[pk].consumerEservice == Some(key) then EntryMoved(s.platform, s.tokens[pk], s'.tokens[pk], a)
         else s'.tokens[pk] == s.tokens[pk]
  }

  /** The row and all entries of the consumer and e-service get the agreement's state, and nothing else changes. */
  ghost predicate Restated(s: Store, s': Store, a: Agreement, version: nat) {
    var key := KeyOf(a);
    && OnlyRow(s.platform, s'.platform, key) && key in s.platform.agreements && key in s'.platform.agreements
    && (var row, row' := s.platform.agreements[key], s'.platform.agreements[key];
        row' == row.(state := row'.state, version := version) && Fits(row'.state, a))
    && s'.tokens.Keys == s.tokens.Keys
    && forall pk <- s.tokens ::
         if s.tokens[pk].consumerEservice == Some(key) then EntryRestated(s.tokens[pk], s'.tokens[pk], a)
         else s'.tokens[pk] == s.tokens[pk]
  }

  lemma ReplacedIsMoved(s: Store, a: Agreement, t: int, version: nat)
    ensures var r := Act(s, a, Replace(RowOf(a, t, version))); r.Ok? && Moved(s, r.value, a, t, version)
  {
  }

  // ---- V2 messages ----

  lemma ActivatedV2(s: Store, a: Agreement, version: nat)
    ensures var r := HandleV2(s, AgreementActivated, a, version);
            match a.activation
            case None => r == Failed
            case Some(t) =>
              && r.Ok?
              && if IsLatestAt(s, a, t) && IsNew(s, a, version) then Moved(s, r.value, a, t, version) else r.value == s
  {
    if a.activation.Some? { ReplacedIsMoved(s, a, a.activation.value, version); }
  }

  lemma UpgradedV2(s: Store, a: Agreement, version: nat)
    ensures var r := HandleV2(s, AgreementUpgraded, a, version);
            match a.upgrade
            case None => r == Failed
            case Some(t) =>
              && r.Ok?
              && if IsLatestAt(s, a, t) && IsNew(s, a, version) && (a.state == ActiveAgreement || a.state == Suspended)
                 then Moved(s, r.value, a, t, version) else r.value == s
  {
    if a.upgrade.Some? { ReplacedIsMoved(s, a, a.upgrade.value, version); }
  }

  lemma SuspendedOrUnsuspendedV2(s: Store, a: Agreement, t: int, version: nat)
    requires IsStamp(a, t)
    ensures var r := HandleV2(s, AgreementSuspendedOrUnsuspended, a, version);
            && r.Ok?
            && if KeyOf(a) in s.platform.agreements && IsLatestAt(s, a, t) && IsNew(s, a, version)
               then Restated(s, r.value, a, version) else r.value == s
  {
  }

  lemma ArchivedV2(s: Store, a: Agreement, t: int, version: nat)
    requires IsStamp(a, t)
    ensures var r := HandleV2(s, AgreementArchived, a, version);
            && r.Ok?
            && if KeyOf(a) in s.platform.agreements && s.platform.agreements[KeyOf(a)].agreementId == a.id
                  && IsLatestAt(s, a, t)
               then Restated(s, r.value, a, version) else r.value == s
  {
  }

  lemma IgnoredV2(s: Store, a: Agreement, version: nat)
    ensures HandleV2(s, OtherV2, a, version) == Ok(s)
  {
  }

  // ---- V1 messages ----

  /** Activation and suspension, and any message that carries an active or suspended agreement on the way of an
      update or upgrade. */
  predicate CarriesLive(event: EventV1, a: Agreement) {
    || event == ActivatedOrSuspendedV1
    || ((event == UpdatedV1 || event == AddedV1) && (a.state == ActiveAgreement || a.state == Suspended))
  }

  predicate CarriesArchived(event: EventV1, a: Agreement) {
    event == DeactivatedV1 || (event == UpdatedV1 && a.state == Archived)
  }

  lemma LiveV1(s: Store, event: EventV1, a: Agreement, t: int, version: nat)
    requires IsStamp(a, t) && CarriesLive(event, a)
    ensures var r := HandleV1(s, event, a, version);
            && r.Ok?
            && if IsLatestAt(s, a, t) && IsNew(s, a, version) then Moved(s, r.value, a, t, version) else r.value == s
  {
    ReplacedIsMoved(s, a, t, version);
  }

  lemma ArchivedV1(s: Store, event: EventV1, a: Agreement, t: int, version: nat)
    requires IsStamp(a, t) && CarriesArchived(event, a)
    ensures var r := HandleV1(s, event, a, version);
            && r.Ok?
            && if KeyOf(a) in s.platform.agreements && s.platform.agreements[KeyOf(a)].agreementId == a.id
                  && IsLatestAt(s, a, t)
               then Restated(s, r.value, a, version) else r.value == s
  {
  }

  lemma IgnoredV1(s: Store, event: EventV1, a: Agreement, version: nat)
    requires !CarriesLive(event, a) && !CarriesArchived(event, a)
    ensures HandleV1(s, event, a, version) == Ok(s)
  {
  }

  lemma EffectV1(s: Store, event: EventV1, a: Agreement, t: int, version: nat)
    requires IsStamp(a, t)
    ensures var r := HandleV1(s, event, a, version);
            && r.Ok?
            && if CarriesLive(event, a) && IsLatestAt(s, a, t) && IsNew(s, a, version)
                 then Moved(s, r.value, a, t, version)
               else if CarriesArchived(event, a) && KeyOf(a) in s.platform.agreements
                       && s.platform.agreements[KeyOf(a)].agreementId == a.id && IsLatestAt(s, a, t)
               then Restated(s, r.value, a, version)
               else r.value == s
  {
    if CarriesLive(event, a) {
      LiveV1(s, event, a, t, version);
    } else if CarriesArchived(event, a) {
      ArchivedV1(s, event, a, t, version);
    } else {
      IgnoredV1(s, event, a, version);
    }
  }

  /** Deletion by agreement id: all rows of the agreement, and all entries that name it, become inactive. */
  lemma DeletedV1(s: Store, id: Id, version: nat)
    ensures var s' := DeleteV1(s, id, version);
            && s'.platform.purposes == s.platform.purposes && s'.platform.catalog == s.platform.catalog
            && s'.platform.clients == s.platform.clients
            && s'.platform.agreements.Keys == s.platform.agreements.Keys && s'.tokens.Keys == s.tokens.Keys
            && (forall k <- s.platform.agreements ::
                  var row := s.platform.agreements[k];
                  s'.platform.agreements[k] ==
                  if row.agreementId == id then row.(state := Inactive, version := version) else row)
            && (forall pk <- s.tokens ::
                  s'.tokens[pk] ==
                  if s.tokens[pk].agreementId == Some(id) then s.tokens[pk].(agreementState := Some(Inactive))
                  else s.tokens[pk])
  {
  }

  // ---- what it comes to ----

  /** After a message that acts, no entry of its consumer and e-service is accepted unless the agreement is active. */
  lemma AcceptedOnlyIfActive(s: Store, s': Store, a: Agreement, t: int, version: nat, pk: TokenPK)
    requires Moved(s, s', a, t, version) || Restated(s, s', a, version)
    requires pk in s.tokens && s.tokens[pk].consumerEservice == Some(KeyOf(a))
    ensures pk in s'.tokens
    ensures CachedDecision.ValidatePlatformState(s'.tokens[pk]) == [] ==> a.state == ActiveAgreement
  {
  }
}
