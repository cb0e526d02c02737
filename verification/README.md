# Projections of the interoperability platform

The platform publishes what happens to agreements, e-services, purposes and clients as Kafka messages, and
several consumers turn those messages into tables. This project models two such families of tables and
proves what the consumers keep true about them.

**The token-generation cache.** Two DynamoDB tables. `platform-states` has one row per purpose, per consumer
and e-service with an agreement, per descriptor and per client. `token-generation-states` has one entry per
client, key and purpose (a *complete* entry), or per client and key while the client has no purpose (a
*partial* entry). A complete entry repeats the purpose, agreement and descriptor rows to which its purpose
leads, so that the authorization server decides by reading one entry. Four consumers write the rows and the
entries without transactions. The project proves

- what each message of the four consumers leaves in each row and entry, told from the message and the tables
  alone, the guards written out, and that no entry of something suspended or archived is accepted afterwards
  (`AgreementEffects`, `CatalogEffects`, `PurposeEffects`, `AuthorizationEffects`, `EntryEffects`);
- that with handlers run one at a time every complete entry is the join of its rows in every reachable state,
  exactly when the cached decision is then the decision on the rows, and exactly which messages keep it so
  (`CacheInvariant`, `CachedDecision`);
- that the second reads close the races between consumers, one DynamoDB call at a time and in every
  interleaving (`RaceModel`, `AuthorizationRace`, `AgreementRace`), and, field by field, exactly when a race
  stays open (`Schedules`, `OpenRaces`, `OpenMoves`, `Crossing`, `OpenCrossings`);
- that the row of a consumer and e-service does not depend on how the streams of its agreements interleave
  (`AgreementConfluence`);
- which entries each client has, and what they hold, under V1 deltas and under V2 snapshots (`TokenKeys`,
  `KeySpaceV1`, `KeySpaceV2`);
- that the handlers as they run, with paged loops and a process that may die before any write, have the
  whole-table meaning that the results above are about, and end in it when run again (`TokenGenStore`,
  `EntryWrites`, `PurposeScan`, `AgreementHandlers`, `CatalogHandlers`, `AuthorizationHandlersV1`,
  `AuthorizationHandlersV2`).

**The SQL read models.** Clients, agreements, e-services and JWKs. An aggregate is spread over several tables
whose rows all carry its metadata version. V1 messages are deltas, V2 messages are snapshots. The project
proves that versions stay uniform, or exactly when a transaction aborts because they would not; that stale
messages change nothing, also where a method guards only row by row; that the rows can be read back, each row
from one field of the snapshot and each field from its row; that deltas leave what a snapshot would
leave; that at-least-once delivery leaves what exactly-once delivery leaves; that the client and the JWK read
model hold the same kids; and that server URLs and interface rows stay in step (`ClientReadModel`, `Delivery`,
`ClientStream`, `DeltaStream`, `ClientEffects`, `ClientConsumer`, `KeyProjections`, `KeyEffects`,
`ProjectionsAgree`, `VersionedTables`, `AgreementReadModel`, `CatalogRows`, `CatalogReadModel`,
`CatalogProperties`, `CatalogConsumer`).

## How it is modelled

- Each DynamoDB consumer is written three times. As a function on both tables it says what a message means
  (`AgreementWriter`, `CatalogWriter`, `AuthorizationWriter`, `PurposeWriter`). As methods of, or over, the
  class `TokenGenStore.Tables` it runs step by step and is proved against that function. As a small-step
  program with one call per step (`RaceModel`) it is interleaved with others; run alone, that program has the
  meaning of the function again (`Schedules.AgreementAlone`, `Schedules.CatalogAlone`).
- What the functions of the consumers mean is said a second time without them, as statements about the tables
  before and after: the modules whose names end in `Effects`, `CatalogRows.ReadsAs`, `CatalogReadModel.Reads` and
  `AgreementReadModel.ReadsAs`. The contracts of the handlers name the functions, so both hold of the code that
  runs.
- A race is open for a field if some interleaving that ends leaves it otherwise than in the final rows. The
  lemmas about open races are equivalences for every paging: all interleavings are right if and only if a
  condition on the rows and the message before the race holds.
- `Tables.fuel` is the number of writes before the process dies. A method's result is `Done`, `Died` or `Threw`.
  Contracts of the form `Handle(t.Now(), m) == Handle(old(t.Now()), m)` hold wherever the process dies, so they
  are the statement that handling the message again finishes the work.
- Paging is an oracle, `Paging`: any assignment of keys to pages. A loop reads a page from the table as it is
  when the page is asked for.
- Secondary indexes are up to date, and a handler reads what earlier calls wrote.
- Audience lists are compared by reference in the agreement writer, so present descriptor data is always
  rewritten when entries move; a voucher lifespan of zero is falsy and is not stored by PutItem
  (`CacheInvariant.LifespanMatches`).
- SQL tables check their foreign keys as the schema says: the one on the id at once, with deletions cascading,
  the one on id and version when the transaction commits. `checkMetadataVersion` lets a call through when the
  root is absent or its version is not above the incoming one.

## What the code does that its readers may not expect

- The second retrieval never refreshes the agreement id, and notices a new audience only if an old value has
  disappeared (`OpenRaces.AgreementIdFollowsIff`, `OpenRaces.AudienceFollowsIff`).
- The asynchronous-exchange flag of an entry is written by additions only: neither a publication nor a move of the
  agreement updates it (`OpenRaces.AsyncFollowsIff`).
- Archiving an agreement can leave an entry with the old state, and a descriptor whose row is gone can leave
  one that looks active (`OpenRaces.AgreementStateFollowsIff`, `OpenRaces.AbsentNeverActiveIff`).
- The second check compares only the state of the descriptor row, and the updates of a publication and of
  quotas do not check the pointer, so that they land on entries that have moved
  (`OpenMoves.MovedFieldFollowsIff`).
- The two second reads do not compose: an addition, a move and a descriptor message can cross, about the new
  descriptor or about the one left behind (`OpenCrossings.DescriptorStateFollowsIff`).
- The quotas branch is not repaired by a second run, unless its entries held the lifespan before
  (`CatalogHandlers.RequotaResumesIff`).
- A prefix deletion by kid deletes the entries of longer kids that begin with it
  (`TokenKeys.KidDeletionIsExact`).
- Because signed contracts and template-version references are left out of the version bump, the deferred
  foreign key makes document messages about such an agreement or e-service abort
  (`AgreementReadModel.ChangeRow`, `VersionedTables.TouchAndBump`).
- Adding and removing the only purpose restores the entries only if they carried the consumer id that the
  purpose row gives (`KeySpaceV1.PurposeRoundTrip`).
- An elliptic-curve key of a V1 message is not stored in either read model, but enters the client read model
  with the next snapshot (`ProjectionsAgree.EllipticKeySplitsProjections`).

## Model

| member | source | states |
|---|---|---|
| TokenKeys.KidHits | packages/authorization-platformstate-writer/src/utils.ts:117-136 | the two prefix scans for a client and kid hit exactly the keys of that client whose kid begins with the given one |
| TokenKeys.ClientHits | packages/authorization-platformstate-writer/src/utils.ts:188-208 | the two prefix scans for a client hit exactly the keys of clients whose id begins with the given one |
| TokenKeys.TextHits | packages/authorization-platformstate-writer/src/utils.ts:801-812 | a containment scan hits a key exactly when its leading word, client id, kid or purpose id contains the text |
| TokenKeys.ApartIsExact | packages/authorization-platformstate-writer/src/utils.ts:801-812 | when no other id contains the client's, containment and prefix scans hit exactly the client's own keys |
| TokenKeys.KidDeletionIsExact | packages/authorization-platformstate-writer/src/utils.ts:117-136 | deletion by kid prefix hits exactly one kid if and only if no other kid of the client begins with it |
| TokenKeys.RenderIsInjective | packages/models/src/token-generation-readmodel/commons.ts:68-90 | different client, kid and purpose never give the same table key |
| PlatformModel.SecondRetrievalReachesJoin | packages/authorization-platformstate-writer/src/utils.ts:1129-1224 | patching an entry created from the same rows completes it to the join, whatever consumer id the handler passed |
| PlatformModel.SecondRetrievalRefreshes | packages/authorization-platformstate-writer/src/utils.ts:1129-1224 | field by field, what a second retrieval leaves of an entry that holds what was put: the fields of the rows that are there, but the agreement id never, the audience only if it lost a value, and the asynchronous flag only if the row has one |
| EntryEffects.JoinRepeatsRows | packages/authorization-platformstate-writer/src/utils.ts:979-1039 | the join is the one entry that repeats, field by field, the purpose row, the agreement row of its consumer and e-service and that one's descriptor row, as far as they are there; a zero lifespan is not stored |
| PlatformModel.SecondRetrievalStaysNear | packages/authorization-platformstate-writer/src/utils.ts:1129-1224 | the patch of another put of the same entry never leads away from the join |
| PlatformModel.PutIsNear | packages/authorization-platformstate-writer/src/utils.ts:1289-1353 | a freshly put entry differs from the join at most in the four fields that the handler's own consumer id decides |
| AgreementEffects.ActivatedV2 | packages/agreement-platformstate-writer/src/consumerServiceV2.ts:33-93 | under the guards written out, the row becomes the agreement's, stamped by its activation, and all entries of the consumer and e-service move to it and to its descriptor; row and entries are active if and only if the agreement is; otherwise nothing changes; fails exactly without the stamp |
| AgreementEffects.UpgradedV2 | packages/agreement-platformstate-writer/src/consumerServiceV2.ts:164-230 | the same, stamped by the upgrade, for an active or suspended agreement only |
| AgreementEffects.SuspendedOrUnsuspendedV2 | packages/agreement-platformstate-writer/src/consumerServiceV2.ts:94-163 | under the guards, row and entries are active if and only if the agreement is, the row has the message's version, and nothing else changes; otherwise nothing does |
| AgreementEffects.ArchivedV2 | packages/agreement-platformstate-writer/src/consumerServiceV2.ts:230-277 | the same of archiving, which asks for the same agreement and does not look at the version |
| AgreementEffects.EffectV1 | packages/agreement-platformstate-writer/src/consumerServiceV1.ts:38-107 | which V1 message replaces, which archives and which is skipped, by its type and by the state that it carries, with the effects above |
| AgreementEffects.DeletedV1 | packages/agreement-platformstate-writer/src/consumerServiceV1.ts:108-124 | all rows of the agreement and all entries that name it become inactive, and no others change |
| AgreementEffects.AcceptedOnlyIfActive | packages/agreement-platformstate-writer/src/utils.ts:153-154 | after a message that acts, no entry of its consumer and e-service is accepted unless the agreement is active |
| CatalogEffects.ActivatedOrSuspended | packages/catalog-platformstate-writer/src/consumerServiceV2.ts:154-201 | a row that is there and not newer, and the entries of the descriptor, are active if and only if it is published, deprecated or archiving; the row has the message's version; nothing else changes |
| CatalogEffects.PublishedAlone | packages/catalog-platformstate-writer/src/consumerServiceV2.ts:44-153 | unless the row is newer, row and entries have the descriptor's state, audience and lifespan, and the row the flag and the version |
| CatalogEffects.PublishedOver | packages/catalog-platformstate-writer/src/consumerServiceV2.ts:44-153 | publication also archives the descriptor numbered one less if that is archived, whether or not it writes its own row |
| CatalogEffects.Unarchived | packages/catalog-platformstate-writer/src/consumerServiceV2.ts:202-256 | unarchival publishes, and archives no other descriptor |
| CatalogEffects.ArchivedOne | packages/catalog-platformstate-writer/src/consumerServiceV2.ts:257-286 | the row goes, whatever its version, and the entries carry the state of the snapshot |
| CatalogEffects.ArchivedAll | packages/catalog-platformstate-writer/src/consumerServiceV2.ts:287-314 | so for every descriptor of an archived e-service, and for no other |
| CatalogEffects.QuotasChanged | packages/catalog-platformstate-writer/src/consumerServiceV2.ts:315-371 | row and entries carry the new lifespan, if the row is there, not newer, and has another one |
| CatalogEffects.NotNamed | packages/catalog-platformstate-writer/src/consumerServiceV2.ts:437-466 | a message that names no descriptor of its snapshot fails |
| CatalogEffects.EffectV1 | packages/catalog-platformstate-writer/src/consumerServiceV1.ts:34-177 | which of these a V1 update does, by the state of its descriptor |
| CatalogEffects.AcceptedOnlyIfUsable | packages/catalog-platformstate-writer/src/utils.ts:146-160 | after a message that acts on a descriptor's state, no entry that points to it is accepted unless it is published, deprecated or archiving |
| PurposeEffects.Activated | packages/purpose-platformstate-writer/src/consumerServiceV2.ts:35-86 | unless the row is newer, row and entries carry the first active or suspended version and are active if and only if some version is; the entries are joined with agreement and descriptor as far as those have rows |
| PurposeEffects.NotActivatable | packages/purpose-platformstate-writer/src/utils.ts:552-568 | activation fails if no version is active or suspended |
| PurposeEffects.VersionChanged | packages/purpose-platformstate-writer/src/consumerServiceV2.ts:87-140 | of a row that is there and not newer, row and entries carry the message's version id and are active if and only if some version is; nothing else changes |
| PurposeEffects.ArchivedPurpose | packages/purpose-platformstate-writer/src/consumerServiceV2.ts:141-164 | the row goes, whatever its version, and the entries carry version id and state |
| PurposeEffects.AcceptedOnlyIfActive | packages/purpose-platformstate-writer/src/utils.ts:43-51 | after a message that acts, no entry of a purpose without an active version is accepted |
| AuthorizationEffects.ClientAddedV1 | packages/authorization-platformstate-writer/src/consumerServiceV1.ts:51-79 | the client row has the kind, the consumer, the purposes and the version of the message, unless it is newer |
| AuthorizationEffects.PurposeAddedV1 | packages/authorization-platformstate-writer/src/consumerServiceV1.ts:257-328 | of a row that is there and not newer, the purposes gain the one added unless they have it |
| AuthorizationEffects.PurposeRemovedV1 | packages/authorization-platformstate-writer/src/consumerServiceV1.ts:329-382 | and lose the one removed, the others staying |
| AuthorizationEffects.SnapshotV2 | packages/authorization-platformstate-writer/src/consumerServiceV2.ts:48-320 | key and purpose messages write kind, consumer and version, and never the purposes; adding a key fails exactly if the snapshot's first key with the kid is missing or empty |
| AuthorizationEffects.PurposeRemovedV2 | packages/authorization-platformstate-writer/src/consumerServiceV2.ts:321-354 | only of a row that is there |
| EntryEffects.KeyAddedV2 | packages/authorization-platformstate-writer/src/consumerServiceV2.ts:48-177 | a consumer's key gets one joined entry per purpose of the snapshot, an API client's key one partial entry of kind Api with the client's consumer; every other entry stays |
| EntryEffects.KeyDeletedV2 | packages/authorization-platformstate-writer/src/consumerServiceV2.ts:178-213 | exactly the key's entries that the snapshot names go: of its purposes, or the partial one if it has none |
| EntryEffects.PurposeAddedV2 | packages/authorization-platformstate-writer/src/consumerServiceV2.ts:214-320 | every key of the snapshot gets one joined entry of the purpose and loses its partial entry; every other entry stays |
| EntryEffects.PurposeGoneV2 | packages/authorization-platformstate-writer/src/consumerServiceV2.ts:321-354 | exactly the purpose's entries of the snapshot's keys go |
| EntryEffects.ClientDeletedV2 | packages/authorization-platformstate-writer/src/consumerServiceV2.ts:355-365 | exactly the entries of its keys that the snapshot names go, whatever the version of the row |
| EntryEffects.KeysAddedV1 | packages/authorization-platformstate-writer/src/consumerServiceV1.ts:80-217 | the first key of the message gets one joined entry per purpose of the row, or a partial entry with the row's kind and consumer |
| EntryEffects.KeyDeletedV1 | packages/authorization-platformstate-writer/src/consumerServiceV1.ts:218-256 | the client's entries whose kid begins with the given one go |
| EntryEffects.PurposeAddedV1 | packages/authorization-platformstate-writer/src/consumerServiceV1.ts:257-328 | where the scan finds the client's own entries, each kid gets one joined entry of the purpose, and loses its partial entry if the purpose is the only one |
| EntryEffects.PurposeRemovedV1 | packages/authorization-platformstate-writer/src/consumerServiceV1.ts:329-382 | the purpose's entries go, and if it was the only one each leaves a partial entry with its kind, key and consumer |
| EntryEffects.ClientDeletedV1 | packages/authorization-platformstate-writer/src/consumerServiceV1.ts:383-393 | the entries of clients whose id begins with the given one go |
| CacheInvariant.StepKeepsJoin | packages/authorization-platformstate-writer/src/utils.ts:1289-1353 | one message of any of the four consumers keeps every complete entry equal to the join |
| CacheInvariant.CacheEqualsJoin | packages/authorization-platformstate-writer/src/utils.ts:979-1039 | in every reachable state each complete entry equals the purpose, agreement and descriptor rows it leads to, group by group |
| CacheInvariant.ActKeepsJoin | packages/agreement-platformstate-writer/src/consumerServiceV2.ts:33-277 | replacing, restating or retiring an agreement row and updating its entries keeps the join |
| CacheInvariant.AgreementDeletionKeepsJoin | packages/agreement-platformstate-writer/src/utils.ts:540-652 | so does deactivating rows and entries by agreement id |
| CacheInvariant.PerformKeepsJoin | packages/catalog-platformstate-writer/src/consumerServiceV2.ts:44-371 | so does every branch of the catalog consumer on one descriptor |
| CacheInvariant.PurposeKeepsJoin | packages/purpose-platformstate-writer/src/consumerServiceV2.ts:34-164 | so does every V2 message of the purpose consumer; which state it gives is said by the rows on `PurposeEffects` |
| CachedDecision.DecisionRightIff | packages/client-assertion-validation/src/utils.ts:255-281 | with the join kept, the decision on an entry is the decision on its three rows, error by error, if and only if it does not look active where the purpose row or the descriptor row under it is missing |
| CachedDecision.MoveKeepsHonest | packages/agreement-platformstate-writer/src/utils.ts:469-538 | moving entries keeps entries from looking active for an absent descriptor row if and only if the row is there or none of them looked active |
| CachedDecision.ArchiveKeepsHonest | packages/catalog-platformstate-writer/src/consumerServiceV2.ts:256-313 | archiving a descriptor does, if and only if it carries an inactive state or no entry points to it |
| CachedDecision.MessageKeepsHonestIff | packages/catalog-platformstate-writer/src/consumerServiceV2.ts:44-371 | a whole catalog message does, if and only if that holds of each descriptor it archives |
| CachedDecision.PurposeArchiveKeepsHonest | packages/purpose-platformstate-writer/src/consumerServiceV2.ts:140-164 | archiving a purpose does, if and only if it carries an inactive state or has no entry |
| CachedDecision.PerformKeepsHonest | packages/catalog-platformstate-writer/src/consumerServiceV2.ts:44-371 | publishing, restating and quotas do so unconditionally |
| CachedDecision.StepKeepsHonestIff | packages/catalog-platformstate-writer/src/consumerServiceV2.ts:44-371 | any message of the four consumers does, if and only if it meets its one of those conditions |
| CachedDecision.HonestRunIff | packages/agreement-platformstate-writer/src/consumerServiceV2.ts:33-277 | over a run, no entry looks active for a missing row after any message if and only if every message meets its condition |
| CachedDecision.CachedDecisionIsRightIff | packages/client-assertion-validation/src/utils.ts:255-281 | in every reachable state, whatever the messages, the decision on an entry is right if and only if no missing row misleads it |
| CachedDecision.CachedDecisionIsRight | packages/client-assertion-validation/src/utils.ts:255-281 | after any run that meets those conditions, an entry is accepted exactly when its purpose, agreement and descriptor rows exist and are active |
| AuthorizationRace.SecondRetrievalClosesTheRace | packages/authorization-platformstate-writer/src/utils.ts:1129-1224 | in every call-level interleaving of any number of additions and any number of agreement and catalog messages, archiving included, each added entry of which at most one message concerns the rows ends with the producer, pointer, descriptor state and lifespan of the final rows; its agreement id, agreement state, audience and asynchronous flag are of the rows before or after, and follow but for the cases below |
| AuthorizationRace.SecondRetrievalCatches | packages/authorization-platformstate-writer/src/consumerServiceV2.ts:98-151 | a second retrieval of the final rows corrects every field that the put or a half-done loop left behind |
| AuthorizationRace.PatchCatches | packages/agreement-platformstate-writer/src/utils.ts:469-538 | an update that reaches an entry after its put brings it to the final rows, whichever rows it was put from |
| AuthorizationRace.ApartLeaves | packages/catalog-platformstate-writer/src/utils.ts:414-460 | a message about other rows changes nothing that an addition reads or has put |
| AgreementRace.SecondCheckClosesTheRace | packages/agreement-platformstate-writer/src/utils.ts:469-538 | in every interleaving of moving an agreement's entries with one catalog message of any flows, while other entries are added, all entries end with the agreement and its descriptor, and with the state, lifespan and audience of its final row but for two cases |
| Schedules.AgreementAlone | packages/agreement-platformstate-writer/src/consumerServiceV2.ts:33-277 | the small-step program of an agreement message, run alone, call by call and with any paging, leaves what the handler means |
| Schedules.CatalogAlone | packages/catalog-platformstate-writer/src/consumerServiceV2.ts:44-371 | so does that of a catalog message with all its flows |
| OpenRaces.AgreementStateFollowsIff | packages/agreement-platformstate-writer/src/consumerServiceV2.ts:230-277 | an entry added during a message always ends with the agreement state of the final row, if and only if the message does not archive its agreement with another state than the row has |
| OpenRaces.AgreementIdFollowsIff | packages/authorization-platformstate-writer/src/utils.ts:1150-1224 | with its agreement id, if and only if the row does not pass to another agreement or get its first one |
| OpenRaces.AudienceFollowsIff | packages/authorization-platformstate-writer/src/utils.ts:1150-1224 | with its audience, if and only if the descriptor row reached by the message lacks a value of the one before, or lists the same, or one of the two is absent |
| OpenRaces.AsyncFollowsIff | packages/authorization-platformstate-writer/src/utils.ts:1150-1224 | with the asynchronous flag of the final descriptor row, if and only if there is none or the row before had the same |
| OpenRaces.AbsentNeverActiveIff | packages/catalog-platformstate-writer/src/consumerServiceV2.ts:256-286 | and never looks active where the message leaves no descriptor row, if and only if the row before was not active and an archiving message carries an inactive state |
| OpenMoves.MovedFieldFollowsIff | packages/agreement-platformstate-writer/src/utils.ts:510-537 | a moved entry always ends with the state, the lifespan or the audience of its descriptor's final row, if and only if the catalog message neither changes that field and not the state of the row, nor sets it, otherwise than the row, on the descriptor that the entry leaves by a publication or quotas |
| Crossing.SafeNeverCrosses | packages/agreement-platformstate-writer/src/utils.ts:469-538 | an addition, any message about its agreement and an activation or suspension never leave another descriptor state, if the agreement keeps its descriptor or the message does not part the two |
| OpenCrossings.ApartMessagesNeverCross | packages/authorization-platformstate-writer/src/utils.ts:1129-1224 | nor do any number of messages, if all but one are about rows that the entry has not led to and will not lead to |
| OpenCrossings.DescriptorStateFollowsIff | packages/authorization-platformstate-writer/src/utils.ts:1129-1224 | the three of them always leave the right descriptor state, if and only if the agreement does not move to a descriptor whose state the message changes, nor away from one that it sets apart from the new one's |
| AgreementConfluence.HandlerStepsRow | packages/agreement-platformstate-writer/src/consumerServiceV2.ts:33-277 | the row recursion below is what the handler leaves in the table, message by message, also when it throws |
| AgreementConfluence.OnlyHandledDecide | packages/agreement-platformstate-writer/src/consumerServiceV2.ts:278-295 | messages that the handler ignores leave the row |
| AgreementConfluence.LatestDecides | packages/agreement-platformstate-writer/src/utils.ts:455-467 | once the agreement with the latest timestamp has come, the row is the one its own stream leaves alone |
| AgreementConfluence.Confluence | packages/agreement-platformstate-writer/src/utils.ts:455-467 | any two interleavings of the same streams, ignored messages among them, leave the same row |
| AgreementConfluence.LastMessageDecides | packages/agreement-platformstate-writer/src/consumerServiceV2.ts:94-229 | alone, a stream leaves the version of its last message that the handler acts on and the state that it gives; which state that is is said by the rows on `AgreementEffects` |
| KeySpaceV1.AddKeeps | packages/authorization-platformstate-writer/src/utils.ts:782-924 | adding a purpose turns keys times purposes into keys times purposes with the new one |
| KeySpaceV1.RemoveKeeps | packages/authorization-platformstate-writer/src/consumerServiceV1.ts:329-382 | removing one keeps the shape, down to one partial entry per key when the last goes |
| KeySpaceV1.KeySpaceFollowsModel | packages/authorization-platformstate-writer/src/consumerServiceV1.ts:45-393 | over interleaved V1 streams of any clients, each client has exactly one partial entry per key, or keys times purposes; its row has its kind, consumer and purposes and the version of its last message; each partial entry holds kind, public key and consumer id, each complete one the join of the rows of platform-states, which may be any |
| KeySpaceV1.ApiEntries | packages/authorization-platformstate-writer/src/consumerServiceV1.ts:196-216 | an API client has one entry per key and no others, of kind Api, with the key and the client's consumer |
| KeySpaceV1.ConsumersHold | packages/authorization-platformstate-writer/src/consumerServiceV1.ts:45-393 | all partial entries of a client name its consumer, as long as no last purpose is removed whose row names another or is missing |
| KeySpaceV1.PurposesConserveKeys | packages/authorization-platformstate-writer/src/consumerServiceV1.ts:257-382 | adding or removing a purpose never changes the set of kids and public keys of a client |
| KeySpaceV1.PurposeRoundTrip | packages/authorization-platformstate-writer/src/utils.ts:399-450 | adding then removing the only purpose restores the table if and only if the client's entries carried the consumer id of the purpose row |
| KeySpaceV2.MigrationKeepsShape | packages/authorization-platformstate-writer/src/consumerServiceV2.ts:48-365 | a V1-shaped client is V2-shaped, with the kind and the consumer of its row, if the entries of an API client name its consumer, as `ApiEntries` and `ConsumersHold` say they do |
| KeySpaceV2.KeySpaceIsProduct | packages/authorization-platformstate-writer/src/consumerServiceV2.ts:48-365 | after every V2 message, among those of any other clients, the complete entries of a client are its snapshot's keys times purposes, with the snapshot's public keys |
| KeySpaceV2.ApiEntriesAreKeys | packages/authorization-platformstate-writer/src/consumerServiceV2.ts:153-177 | after every V2 message an API client has one entry per key of its snapshot and no others, of kind Api, with the snapshot's public key and consumer, and its row says the same |
| KeySpaceV2.ProductAfterMigration | packages/authorization-platformstate-writer/src/consumerServiceV2.ts:48-365 | the same set equality from any such V1-shaped state; partial entries are a subset of the keys, and none while purposes exist |
| TokenGenStore.PatchingResumes | packages/agreement-platformstate-writer/src/utils.ts:292-422 | an update loop run again over a half-updated table gives what one run gives |
| TokenGenStore.DeletingResumes | packages/authorization-platformstate-writer/src/utils.ts:59-115 | the same for a deletion loop |
| TokenGenStore.Tables.PutToken | packages/authorization-platformstate-writer/src/utils.ts:591-726 | PutItem replaces one entry, without a zero lifespan |
| TokenGenStore.Tables.UpdateAll | packages/catalog-platformstate-writer/src/utils.ts:242-412 | every paged query-and-update loop ends, and equals one update of exactly the matching entries for every page split; if it dies, some of them are updated and nothing else |
| TokenGenStore.Tables.DeleteAll | packages/authorization-platformstate-writer/src/utils.ts:59-115 | the same for every paged scan-and-delete loop |
| AgreementHandlers.MovesAreStable | packages/agreement-platformstate-writer/src/utils.ts:200-290 | a moved entry is still found by the same query, and moving it twice is moving it once |
| AgreementHandlers.DecidesAgainV2 | packages/agreement-platformstate-writer/src/consumerServiceV2.ts:33-277 | a message decides on the row it wrote as it decided on the row before |
| AgreementHandlers.DecidesAgainV1 | packages/agreement-platformstate-writer/src/consumerServiceV1.ts:38-318 | the same for V1 |
| AgreementHandlers.ActsAgain | packages/agreement-platformstate-writer/src/consumerServiceV2.ts:33-277 | row and entries written in any part, the same action ends in the same tables |
| AgreementHandlers.MoveEntries | packages/agreement-platformstate-writer/src/utils.ts:469-538 | the loop and the second check move exactly the entries of the consumer and e-service |
| AgreementHandlers.HandleMessageV2 | packages/agreement-platformstate-writer/src/consumerServiceV2.ts:27-303 | a finished V2 handler means its message, in the sense of the rows on `AgreementEffects`; one that throws writes nothing, and a crash anywhere is repaired by a second run |
| AgreementHandlers.HandleMessageV1 | packages/agreement-platformstate-writer/src/consumerServiceV1.ts:32-106 | the same for V1 |
| AgreementHandlers.RetireRows | packages/agreement-platformstate-writer/src/utils.ts:540-597 | the paged loop over the rows of an agreement id retires exactly those |
| AgreementHandlers.HandleDeletionV1 | packages/agreement-platformstate-writer/src/consumerServiceV1.ts:108-124 | V1 deletion retires rows and entries by agreement id, for every page split and every crash |
| CatalogHandlers.PerformOp | packages/catalog-platformstate-writer/src/consumerServiceV2.ts:44-371 | one flow writes its row, then exactly the entries that point to the descriptor |
| CatalogHandlers.PerformsAgain | packages/catalog-platformstate-writer/src/consumerServiceV2.ts:44-313 | a flow that died is finished by a second run, if it is not one of quotas that parts row and entries |
| CatalogHandlers.RequotaResumesIff | packages/catalog-platformstate-writer/src/consumerServiceV2.ts:314-371 | a quotas flow is finished by a second run wherever it dies, if and only if it would not proceed or all entries of the descriptor hold the lifespan before it |
| CatalogHandlers.AllPerformAgain | packages/catalog-platformstate-writer/src/consumerServiceV2.ts:44-153 | a message of several flows that died in the middle of one is finished by a second run of all |
| CatalogHandlers.OpsAreDistinct | packages/catalog-platformstate-writer/src/consumerServiceV2.ts:44-313 | no two flows of one message touch the same descriptor, all but the first archive, and quotas stand alone |
| CatalogHandlers.HandleMessageV2 | packages/catalog-platformstate-writer/src/consumerServiceV2.ts:33-436 | a finished V2 handler means its message, in the sense of the rows on `CatalogEffects`; one that throws writes nothing, and a crash anywhere is repaired by a second run, for quotas under the condition above |
| CatalogHandlers.HandleMessageV1 | packages/catalog-platformstate-writer/src/consumerServiceV1.ts:28-196 | the same for V1 |
| EntryWrites.RefreshOne | packages/authorization-platformstate-writer/src/utils.ts:1129-1224 | one second retrieval settles its put, also among several puts of one entry |
| EntryWrites.RefreshAll | packages/authorization-platformstate-writer/src/utils.ts:1129-1224 | after all of them every added entry is the join of its rows, and no other entry has changed |
| EntryWrites.AddKey | packages/authorization-platformstate-writer/src/consumerServiceV1.ts:132-184 | a key added to a client with purposes gets exactly one joined entry per purpose |
| PurposeScan.AddPurposeAt | packages/authorization-platformstate-writer/src/utils.ts:782-924 | the table after V1 ClientPurposeAdded, key by key: joined targets, no partial entries left if the purpose is the only one, the rest as before |
| PurposeScan.AddsAgain | packages/authorization-platformstate-writer/src/utils.ts:847-914 | from any half-done table, partial and complete entries mixed, a second run gives what one run gives |
| PurposeScan.ScanPage | packages/authorization-platformstate-writer/src/utils.ts:813-914 | one page, with its own set of seen kids, leaves every scanned item with a joined target |
| PurposeScan.AddToScanned | packages/authorization-platformstate-writer/src/utils.ts:782-924 | the scan that inserts into the table it scans ends, and equals one whole-table update for every page split |
| AuthorizationHandlersV1.DeleteByPrefixes | packages/authorization-platformstate-writer/src/utils.ts:117-208 | two prefix scans delete exactly the entries that either prefix hits |
| AuthorizationHandlersV1.ConvertsAgain | packages/authorization-platformstate-writer/src/utils.ts:399-450 | from any half-done conversion to partial entries a second run gives what one run gives |
| AuthorizationHandlersV1.ConvertAll | packages/authorization-platformstate-writer/src/utils.ts:399-450 | the conversion loop ends, and equals one whole-table conversion for every page split |
| AuthorizationHandlersV1.RowAgain | packages/authorization-platformstate-writer/src/consumerServiceV1.ts:51-393 | a message finds the client row it wrote itself as it found the row before |
| AuthorizationHandlersV1.HandleMessageV1 | packages/authorization-platformstate-writer/src/consumerServiceV1.ts:45-393 | a finished V1 handler means its message, one that throws writes nothing, and a crash at any write is repaired by a second run |
| AuthorizationHandlersV1.DeliverV1 | packages/authorization-platformstate-writer/src/consumerServiceV1.ts:45-393 | any number of crashed runs before a finished one give one uninterrupted run |
| AuthorizationHandlersV1.ReachedStatesAreOrderFree | packages/authorization-platformstate-writer/src/utils.ts:813-914 | in every V1-reachable state the condition of the handler theorem, equal kids have equal public keys, holds |
| AuthorizationHandlersV2.AddPurposeToKeys | packages/authorization-platformstate-writer/src/consumerServiceV2.ts:254-318 | each snapshot key ends with one joined entry of the purpose and no partial entry |
| AuthorizationHandlersV2.DeleteCompletes | packages/authorization-platformstate-writer/src/utils.ts:348-369 | exactly the named complete entries go |
| AuthorizationHandlersV2.DeleteDoomed | packages/authorization-platformstate-writer/src/utils.ts:210-248 | key and client deletion delete exactly the entries that the snapshot names |
| AuthorizationHandlersV2.HandleMessageV2 | packages/authorization-platformstate-writer/src/consumerServiceV2.ts:41-365 | a finished V2 handler means its message, in the sense of the rows on `AuthorizationEffects` and `EntryEffects`; one that throws writes nothing, and a crash at any write is repaired by a second run |
| AuthorizationHandlersV2.DeliverV2 | packages/authorization-platformstate-writer/src/consumerServiceV2.ts:41-365 | any number of crashed runs before a finished one give one uninterrupted run |
| Delivery.ScheduleDoesNotMatter | packages/kafka-iam-auth/src/index.ts:374-408 | under commit-after-handle, whatever is crashed, repeated or replayed from the start, a consumer at the end of the log holds what one exactly-once run holds, and no message has thrown, if a present state absorbs seen messages and an absent one stays absent |
| ClientReadModel.ViewsDecide | docker/readmodel-db/client.sql:1-44 | with uniform versions, tables that agree on every client as a whole agree on every row |
| ClientReadModel.BumpMakesUniform | packages/client-readmodel-writer-sql/src/clientWriterService.ts:28-51 | the bump over the four tables makes versions uniform, whichever parts were new |
| ClientReadModel.BumpedView | packages/client-readmodel-writer-sql/src/clientWriterService.ts:28-51 | and changes nothing but the version |
| ClientReadModel.StaleBumpIsNoOp | packages/client-readmodel-writer-sql/src/clientWriterService.ts:28-51 | with uniform versions a stale bump changes no row of any table |
| ClientReadModel.StaleStatementsAreNoOp | packages/client-readmodel-writer-sql/src/clientWriterService.ts:143-322 | so do the statements of the methods that guard only row by row |
| ClientReadModel.ChangeIsApply | packages/client-readmodel-writer-sql/src/clientWriterService.ts:107-322 | statements and bump change one client as the operation means and no other client, and leave versions uniform |
| ClientReadModel.ReadModel.BumpVersions | packages/client-readmodel-writer-sql/src/clientWriterService.ts:28-51 | the loop over the four tables bumps each |
| ClientReadModel.InsertUsers | packages/client-readmodel-writer-sql/src/clientWriterService.ts:76-81 | the loop adds exactly the users, repeated ones once, and leaves other rows |
| ClientReadModel.InsertPurposes | packages/client-readmodel-writer-sql/src/clientWriterService.ts:83-85 | the loop adds exactly the purposes, and fails exactly on a repeated one |
| ClientReadModel.InsertNewKeys | packages/client-readmodel-writer-sql/src/clientWriterService.ts:87-89 | the loop adds exactly the keys, and fails exactly on a repeated kid |
| ClientReadModel.ReadModel.UpsertClient | packages/client-readmodel-writer-sql/src/clientWriterService.ts:54-91 | the client becomes its snapshot, stale calls change nothing, and it aborts exactly on repeated purposes or kids |
| ClientReadModel.ReadModel.DeleteClientById | packages/client-readmodel-writer-sql/src/clientWriterService.ts:93-105 | the client and all its parts go unless the call is stale |
| ClientReadModel.ReadModel.AddUser | packages/client-readmodel-writer-sql/src/clientWriterService.ts:107-141 | one user more at the new version; aborts without the client |
| ClientReadModel.ReadModel.RemoveUser | packages/client-readmodel-writer-sql/src/clientWriterService.ts:143-165 | one user less at the new version; a stale call changes nothing though there is no up-front check |
| ClientReadModel.ReadModel.AddPurpose | packages/client-readmodel-writer-sql/src/clientWriterService.ts:167-200 | one purpose more at the new version; aborts without the client |
| ClientReadModel.ReadModel.RemovePurpose | packages/client-readmodel-writer-sql/src/clientWriterService.ts:202-227 | one purpose less at the new version; stale calls change nothing |
| ClientReadModel.ReadModel.AddKeys | packages/client-readmodel-writer-sql/src/clientWriterService.ts:229-272 | keys with new kids are added, those with known kids are not changed; an empty list changes nothing, the version neither |
| ClientReadModel.ReadModel.DeleteKey | packages/client-readmodel-writer-sql/src/clientWriterService.ts:274-296 | one key less at the new version; stale calls change nothing |
| ClientReadModel.ReadModel.MigrateKeyRelationshipToUser | packages/client-readmodel-writer-sql/src/clientWriterService.ts:298-322 | the key's user changes; stale calls change nothing |
| ClientStream.AppliedTwice | packages/client-readmodel-writer-sql/src/clientWriterService.ts:54-322 | any writer call repeated at once changes nothing |
| ClientStream.VersionNeverDecreases | packages/client-readmodel-writer-sql/src/clientWriterService.ts:28-322 | while a client exists its version never decreases along a run |
| ClientStream.TablesDoNotDependOnSchedule | packages/kafka-iam-auth/src/index.ts:118-138 | for every schedule of crashes and replays, deletion included, the client's rows end as in exactly-once processing |
| DeltaStream.DeltaStores | packages/client-readmodel-writer-sql/src/clientConsumerServiceV1.ts:18-115 | a V1 delta leaves what a snapshot of the folded client would, at the new version unless it had nothing to store |
| DeltaStream.DeltasRefineSnapshots | packages/client-readmodel-writer-sql/src/clientWriterService.ts:54-91 | so does every V1 stream, at the version of the last message that had anything to store |
| DeltaStream.StreamIsClean | packages/client-readmodel-writer-sql/src/clientConsumerServiceV1.ts:18-115 | no transaction of such a stream aborts |
| ClientEffects.CallHasEffectV1 | packages/client-readmodel-writer-sql/src/clientConsumerServiceV1.ts:14-115 | columns of the client row with blanks as nulls; users and purposes one more or one less; a new kid gets the first key that comes with it and is not elliptic, with a blank user as null, and a known kid keeps its data; a missing client makes additions abort; newer tables and other clients stay |
| ClientEffects.CallHasEffectV2 | packages/client-readmodel-writer-sql/src/clientConsumerServiceV2.ts:11-65 | the rows of the client are those of the snapshot, each user, purpose and key and no others, or gone; it aborts exactly on repeated purposes or kids |
| ClientConsumer.HandleV1 | packages/client-readmodel-writer-sql/src/clientConsumerServiceV1.ts:14-115 | each V1 message makes the writer call that means it; the tables then hold, row by row, what the message says (`ClientEffects.EffectV1`) |
| ClientConsumer.HandleV2 | packages/client-readmodel-writer-sql/src/clientConsumerServiceV2.ts:11-65 | each V2 message stores its snapshot or deletes the client; the tables then hold, row by row, the snapshot or nothing of it (`ClientEffects.EffectV2`) |
| ClientConsumer.Consume | packages/kafka-iam-auth/src/index.ts:374-408 | the consumer loop over the tables, dying or not before each commit, ends with every client as in exactly-once processing |
| KeyProjections.JwkReadModel.UpsertClientJWKKey | packages/key-readmodel-writer-sql/src/clientJWKKeyWriterService.ts:15-58 | the key's row is replaced unless newer, and no other row changes |
| KeyProjections.JwkReadModel.DeleteByClientIdAndKid | packages/key-readmodel-writer-sql/src/clientJWKKeyWriterService.ts:60-77 | the key's row goes unless newer, and no other row changes |
| KeyProjections.JwkReadModel.DeleteByClientId | packages/key-readmodel-writer-sql/src/clientJWKKeyWriterService.ts:79-94 | all the client's rows go but newer ones |
| KeyProjections.AddEach | packages/key-readmodel-writer-sql/src/keyConsumerServiceV1.ts:19-38 | a V1 batch succeeds exactly when all its keys can be converted, and is then one upsert after another |
| KeyProjections.HandleMessage | packages/key-readmodel-writer-sql/src/keyConsumerServiceV2.ts:13-79 | each message changes the rows of its client as the row-wise step says, and throws exactly when the key is missing or not convertible |
| KeyEffects.StepHasEffect | packages/key-readmodel-writer-sql/src/keyConsumerServiceV2.ts:13-79 | told from the message: which rows it stores, with the last key of a V1 batch or the snapshot's first key with the kid, and which it removes; newer rows stay; which messages throw |
| ProjectionsAgree.UpsertEachIsOne | packages/key-readmodel-writer-sql/src/keyConsumerServiceV1.ts:19-38 | a batch of upserts is one upsert of the last key with the kid |
| ProjectionsAgree.JwkRowsDoNotDependOnSchedule | packages/kafka-iam-auth/src/index.ts:374-408 | for every schedule the JWK rows end as in exactly-once processing |
| ProjectionsAgree.ClientKids | packages/client-readmodel-writer-sql/src/clientWriterService.ts:229-296 | after a prefix whose messages each name their kid the client read model holds exactly the kids added and not deleted |
| ProjectionsAgree.ClientKidsIff | packages/client-readmodel-writer-sql/src/clientWriterService.ts:54-296 | after all prefixes it does, if and only if each message about the client names its kid |
| ProjectionsAgree.JwkKids | packages/key-readmodel-writer-sql/src/clientJWKKeyWriterService.ts:15-94 | the JWK read model always does |
| ProjectionsAgree.PrefixesAgreeIff | packages/key-readmodel-writer-sql/src/clientJWKKeyWriterService.ts:15-94 | after every common prefix both hold the same kids, though one is versioned per client and the other per key, if and only if each message about the client creates it with the kids it has or changes them by the kid it names |
| ProjectionsAgree.SchedulesAgree | packages/kafka-iam-auth/src/index.ts:374-408 | under that condition also when each consumer has its own schedule of crashes and replays |
| ProjectionsAgree.EllipticKeySplitsProjections | packages/client-readmodel-writer-sql/src/clientConsumerServiceV1.ts:73-90 | an elliptic-curve key fails the condition, and makes them differ |
| VersionedTables.BumpCommitsIff | packages/catalog-readmodel-writer-sql/src/catalogWriterService.ts:35-65 | a bump over some tables makes versions uniform if and only if it leaves no older row behind |
| VersionedTables.StaleBumpIsNoOp | packages/catalog-readmodel-writer-sql/src/catalogWriterService.ts:35-65 | with uniform versions a stale bump changes no row |
| VersionedTables.VersionNeverDecreases | packages/agreement-readmodel-writer-sql/src/agreementWriterService.ts:26-59 | over a run of transactions as the methods below make them, the version of an agreement or e-service never decreases while it exists |
| VersionedTables.TouchAndBump | packages/agreement-readmodel-writer-sql/src/agreementWriterService.ts:26-59 | changing rows and bumping commits if and only if no row is in an omitted table or the version stays, and leaves other aggregates alone |
| VersionedTables.SameContentsSameTables | docker/readmodel-db/catalog.sql:1-60 | with uniform versions equal contents and version make equal tables |
| VersionedTables.Bump | packages/catalog-readmodel-writer-sql/src/catalogWriterService.ts:35-65 | the loop over the tables bumps exactly the aggregate's older rows |
| VersionedTables.InsertAll | packages/catalog-readmodel-writer-sql/src/catalogWriterService.ts:93-195 | a sequence of insertions succeeds exactly when no primary key repeats, and then adds exactly those rows |
| AgreementReadModel.ChangeRow | packages/agreement-readmodel-writer-sql/src/agreementWriterService.ts:26-59 | a document change commits if and only if the agreement has no signed contract or keeps its version, and then changes that row and the version only |
| AgreementReadModel.SnapshotIsUniform | packages/agreement-readmodel-writer-sql/src/agreementWriterService.ts:62-118 | an inserted snapshot carries one version in all its tables |
| AgreementReadModel.SnapshotReads | packages/readmodel/src/agreement/splitters.ts:30-197 | each row of an inserted snapshot comes from one stamp, attribute, document or contract, in its table under its key, and each of those has its row; the other agreements' rows stay |
| AgreementReadModel.AgreementWriter.UpsertAgreement | packages/agreement-readmodel-writer-sql/src/agreementWriterService.ts:62-118 | exactly the snapshot's rows replace the agreement's, and can be read back; stale calls change nothing; aborts exactly on a repeated primary key; no version decreases |
| AgreementReadModel.AgreementWriter.DeleteAgreementById | packages/agreement-readmodel-writer-sql/src/agreementWriterService.ts:120-131 | the agreement and its parts go unless the call is stale |
| AgreementReadModel.AgreementWriter.UpsertConsumerDocument | packages/agreement-readmodel-writer-sql/src/agreementWriterService.ts:133-170 | one document is stored at the new version, also one taken from another agreement; stale calls change nothing; no version decreases |
| AgreementReadModel.AgreementWriter.DeleteConsumerDocument | packages/agreement-readmodel-writer-sql/src/agreementWriterService.ts:172-199 | one document goes at the new version, unless it is newer; stale calls change nothing though there is no up-front check; no version decreases |
| AgreementReadModel.AgreementWriter.UpsertContractDocument | packages/agreement-readmodel-writer-sql/src/agreementWriterService.ts:201-243 | the contract is stored at the new version; a different contract already stored makes it abort |
| CatalogRows.DescriptorPartsRead | packages/catalog-readmodel-writer-sql/src/catalogWriterService.ts:474-559 | the rows that both snapshots write of a descriptor are those of its text, server URLs, interfaces, documents, attributes, reasons, schedule and properties, each in its table under its key with its parent, and no others |
| CatalogRows.SnapshotReads | packages/catalog-readmodel-writer-sql/src/catalogWriterService.ts:93-195 | the rows of an e-service snapshot can be read back, its own and those of all descriptors: each row comes from one field, and each field has its row |
| CatalogReadModel.ChangedReads | packages/catalog-readmodel-writer-sql/src/catalogWriterService.ts:197-559 | key by key, the rows after each method are those before it but for what the method is about, told from its arguments |
| CatalogReadModel.StaleStatementsAreNoOp | packages/catalog-readmodel-writer-sql/src/catalogWriterService.ts:337-472 | with uniform versions the methods without an up-front check change nothing when stale |
| CatalogReadModel.StatementsDo | packages/catalog-readmodel-writer-sql/src/catalogWriterService.ts:197-559 | statements and bump change one e-service as the operation means, commit exactly when no template reference is left behind or the version stays, and leave the others alone |
| CatalogReadModel.CatalogWriter.Finish | packages/catalog-readmodel-writer-sql/src/catalogWriterService.ts:35-65 | the bump and commit of a method, for events that name the right part and for those that do not; no version decreases |
| CatalogReadModel.CatalogWriter.UpsertEservice | packages/catalog-readmodel-writer-sql/src/catalogWriterService.ts:93-195 | exactly the snapshot's rows replace the e-service's, and can be read back; stale calls change nothing; aborts exactly on a repeated primary key, a repeated risk-analysis form or an answer without one; no version decreases |
| CatalogReadModel.CatalogWriter.DeleteEserviceById | packages/catalog-readmodel-writer-sql/src/catalogWriterService.ts:407-419 | the e-service and its parts go unless the call is stale |
| CatalogReadModel.CatalogWriter.DeleteDescriptorById | packages/catalog-readmodel-writer-sql/src/catalogWriterService.ts:197-225 | the descriptor and what is below it go, at the new version |
| CatalogReadModel.CatalogWriter.UpsertDocument | packages/catalog-readmodel-writer-sql/src/catalogWriterService.ts:227-273 | one document is stored at the new version; aborts without its descriptor |
| CatalogReadModel.CatalogWriter.UpsertInterface | packages/catalog-readmodel-writer-sql/src/catalogWriterService.ts:275-335 | the descriptor's interfaces are replaced by one and its server URLs set |
| CatalogReadModel.CatalogWriter.UpdateDocOrInterface | packages/catalog-readmodel-writer-sql/src/catalogWriterService.ts:337-405 | a stored interface or document is updated, server URLs with an interface only |
| CatalogReadModel.CatalogWriter.DeleteDocumentOrInterface | packages/catalog-readmodel-writer-sql/src/catalogWriterService.ts:421-472 | an interface goes with the server URLs, or else a document goes |
| CatalogReadModel.CatalogWriter.UpsertDescriptor | packages/catalog-readmodel-writer-sql/src/catalogWriterService.ts:474-559 | exactly the descriptor's rows, field by field, replace those below it |
| CatalogProperties.ChangeKeepsInStep | packages/catalog-readmodel-writer-sql/src/catalogWriterService.ts:67-90 | no method that names the right descriptor leaves server URLs without an interface row |
| CatalogProperties.SnapshotInStep | packages/catalog-readmodel-writer-sql/src/catalogWriterService.ts:93-195 | nor does a snapshot whose descriptors have none |
| CatalogProperties.RunKeepsInStep | packages/catalog-readmodel-writer-sql/src/catalogWriterService.ts:275-472 | in every reachable state a descriptor without an interface row has no server URLs |
| CatalogProperties.DescriptorUpsertIsSnapshotIff | packages/catalog-readmodel-writer-sql/src/catalogWriterService.ts:474-559 | upserting a descriptor leaves the contents of the snapshot with that descriptor replaced if and only if it carries no template reference and no archiving request |
| CatalogProperties.SameTablesIff | packages/catalog-readmodel-writer-sql/src/catalogWriterService.ts:474-559 | the same about the tables of all e-services after the two transactions |
| CatalogConsumer.HandleV1 | packages/catalog-readmodel-writer-sql/src/consumerServiceV1.ts:11-116 | each V1 message has the effect of its step on the e-service and on no other, or changes nothing; the rows then are, key by key, what the message says, interfaces and documents in their own tables; no version decreases |

## Left out

- AgreementConfluence.Confluence: about the row only; entries follow it by the join invariant.
- KeySpaceV1.KeySpaceFollowsModel: ids and kids must not contain one another, as UUIDs and thumbprints of fixed length do not.
- KeySpaceV2.KeySpaceIsProduct: for snapshots that name each kid once, each changed from the one before as its event says.
- AuthorizationHandlersV1.HandleMessageV1: for ClientPurposeAdded it requires that equal kids of the client have equal public keys, otherwise the order of the scan decides; `ReachedStatesAreOrderFree` proves it of reachable states.
- ProjectionsAgree.SchedulesAgree: a key that cannot be converted stops the JWK consumer for good after part of its batch; no consumer then gets to the end of the log.
- CatalogReadModel.CatalogWriter.UpdateDocOrInterface: an interface that an event moves to another descriptor, which has one of its kind, violates a constraint that is not modelled.
- CatalogEffects.ArchivedAll: for snapshots whose descriptors have different ids; `PublishedOver` too asks that of its two descriptors.
- CachedDecision.HonestRunIff: for catalog messages that name each descriptor once.
- CacheInvariant.CacheEqualsJoin: a purpose keeps its consumer and e-service, and V1 purpose messages are not part of the model.
- OpenCrossings.DescriptorStateFollowsIff: about activations and suspensions; of other catalog messages crossing a move and an addition only `ApartMessagesNeverCross` speaks.
- Races are between V2 agreement messages, V1 or V2 catalog messages and V2 additions; V1 additions, which scan, take part in none.
- The purpose consumer runs only as a function on the tables, and takes part in no race.
- Calls that one handler makes inside one `Promise.all` are made in order in the classes; their interleavings are those of the race modules, entry by entry.
- The rows of an e-service snapshot are inserted descriptor by descriptor and not table by table; nobody sees the tables in between.
- Generated ids of archiving requests are positions in the list.
- Admin ids of API clients, producer keychains, `asyncExchangeProperties` of descriptor rows and `updatedAt` are not modelled; the async-exchange feature flag is a parameter.
- What `createJWK` computes is not modelled; a key's type stands for what decides whether it succeeds.
- A message without its payload, whose handler throws before anything is written, is modelled for keys and purpose ids only; messages that a consumer ignores are one case or none.
- Replication lag of secondary indexes, DynamoDB expression strings, SQL text, parsing of messages, logging and network faults other than a crash are not modelled.
- The dispatch of V2 e-service messages and of agreement messages to the SQL writers is one call per message and is not modelled.
- The snapshot-only SQL writers (purposes, tenants, delegations, attributes, templates, notification configurations) are one upsert each.
- Token generation before and after the state check, the APIs, gateways and user interface are not part of this model.
