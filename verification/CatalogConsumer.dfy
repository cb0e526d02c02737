/** The consumer of V1 e-service messages that keeps the SQL read model, as it runs. */
module CatalogConsumer {
  import opened Basics
  import opened VersionedTables
  import opened CatalogRows
  import opened CatalogReadModel
  import opened CatalogProperties

  datatype EventV1 =
    | EserviceChanged(eservice: Eservice)                  // seven message types carry the whole e-service
    | EserviceWithDescriptorsDeleted(descriptorId: Id)
    | DocumentUpdated(descriptorId: Id, document: Part, serverUrls: seq<string>)
    | EserviceDeleted
    | DocumentAdded(descriptorId: Id, document: Part, serverUrls: seq<string>, isInterface: bool)
    | DocumentDeleted(descriptorId: Id, documentId: Id)
    | DescriptorChanged(descriptor: Descriptor)            // added or updated

  function EventOf(event: EventV1): Event {
    match event
    case EserviceChanged(eservice) => Snapshot(eservice)
    case EserviceWithDescriptorsDeleted(d) => Change(DeleteDescriptor(d))
    case DocumentUpdated(d, doc, urls) => Change(UpdateDocOrInterface(d, doc, urls))
    case EserviceDeleted => Removal
    case DocumentAdded(d, doc, urls, isInterface) =>
      Change(if isInterface then UpsertInterface(d, doc, urls) else UpsertDocument(d, doc))
    case DocumentDeleted(d, id) => Change(DeleteDocOrInterface(d, id))
    case DescriptorChanged(d) => Change(UpsertDescriptor(d))
  }

  /** The rows of e-service `e` before and after a message about it, told from the message. */
  ghost predicate ReadsMessage(before: Tables, now: Tables, e: Id, event: EventV1) {
    var w, w' := Rows(before, e), Rows(now, e);
    match event
    case EserviceChanged(eservice) => ReadsAs(w', eservice)
    case EserviceWithDescriptorsDeleted(d) => Reads(w, w', DeleteDescriptor(d))
    case DocumentUpdated(d, doc, urls) => Reads(w, w', UpdateDocOrInterface(d, doc, urls))
    case EserviceDeleted => w' == map[]
    case DocumentAdded(d, doc, urls, true) => Reads(w, w', UpsertInterface(d, doc, urls))
    case DocumentAdded(d, doc, _, false) => Reads(w, w', UpsertDocument(d, doc))
    case DocumentDeleted(d, id) => Reads(w, w', DeleteDocOrInterface(d, id))
    case DescriptorChanged(d) => Reads(w, w', UpsertDescriptor(d))
  }

  /** What the tables hold about an e-service. */
  function Held(db: Tables, e: Id): Option<Whole> {
    if Exists(db, Eservices, e) then Some(Rows(db, e)) else None
  }

  /** Messages about a part of the e-service. */
  method HandlePart(rm: CatalogWriter, e: Id, event: EventV1, version: nat) returns (o: Transaction)
    requires Uniform(rm.db, Eservices) && EventOf(event).Change?
    modifies rm
    ensures Does(old(rm.db), rm.db, e, EventOf(event).op, version, o) && NeverOlder(old(rm.db), rm.db, Eservices)
    ensures NamesRight(old(rm.db), e, EventOf(event).op) && Nested(old(rm.db))
              && Current(old(rm.db), Eservices, e, version) && o.Committed? ==>
              ReadsMessage(old(rm.db), rm.db, e, event)
  {
    match event
    case EserviceWithDescriptorsDeleted(d) => o := rm.DeleteDescriptorById(e, d, version);
    case DocumentUpdated(d, doc, urls) => o := rm.UpdateDocOrInterface(e, d, doc, urls, version);
    case DocumentAdded(d, doc, urls, isInterface) =>
      if isInterface {
        o := rm.UpsertInterface(e, d, doc, urls, version);
      } else {
        o := rm.UpsertDocument(e, d, doc, version);
      }
    case DocumentDeleted(d, id) => o := rm.DeleteDocumentOrInterface(e, d, id, version);
    case DescriptorChanged(d) => o := rm.UpsertDescriptor(e, d, version);
  }

  /** A message that commits on a current or missing e-service is one step of its contents; a stale one changes
      no table at all. */
  method HandleV1(rm: CatalogWriter, e: Id, event: EventV1, version: nat) returns (o: Transaction)
    requires Uniform(rm.db, Eservices) && Nested(rm.db)
    requires event.EserviceChanged? ==> event.eservice.id == e
    modifies rm
    ensures Uniform(rm.db, Eservices) && NeverOlder(old(rm.db), rm.db, Eservices)
    ensures var step := EventOf(event);
            (step.Change? ==> NamesRight(old(rm.db), e, step.op)) ==>
              && Nested(rm.db)
              && (o.Aborted? || IsStale(old(rm.db), Eservices, e, version) ==> rm.db == old(rm.db))
              && (o.Committed? && !IsStale(old(rm.db), Eservices, e, version) ==>
                    && Held(rm.db, e) == Step(Held(old(rm.db), e), e, step) && OthersSame(old(rm.db), rm.db, e)
                    && (Exists(old(rm.db), Eservices, e) || event.EserviceChanged? ==>
                          ReadsMessage(old(rm.db), rm.db, e, event)))
  {
    match event
    case EserviceChanged(eservice) => o := rm.UpsertEservice(eservice, version);
    case EserviceDeleted =>
      WithoutIsUniform(rm.db, Eservices, e);
      rm.DeleteEserviceById(e, version);
      o := Committed;
    case _ => o := HandlePart(rm, e, event, version);
  }
}
