/**
 Snapshots of e-services and the rows that hold them: a root table and eleven tables of parts, most of them below
 a descriptor. What the rows hold can be read back from the snapshot, table by table and key by key.
 */
module CatalogRows {
  import opened Basics
  import opened VersionedTables

  // ---- documents ----

  /** `text` stands for the columns that no statement looks at. */
  datatype Part = Part(id: Id, text: string)

  datatype Attribute = Attribute(id: Id, group: nat, text: string)

  datatype Descriptor = Descriptor(
    id: Id, text: string, serverUrls: seq<string>, interface: Option<Part>, callbackInterface: Option<Part>,
    docs: seq<Part>, attributes: seq<Attribute>, rejectionReasons: seq<string>, templateRef: Option<Part>,
    archivingSchedule: Option<string>, asyncProperties: Option<string>, archivingRequests: seq<string>)

  datatype RiskAnalysis = RiskAnalysis(id: Id, formId: Id, text: string)

  datatype RiskAnswer = RiskAnswer(id: Id, formId: Id, text: string)

  datatype Eservice = Eservice(
    id: Id, text: string, descriptors: seq<Descriptor>, riskAnalyses: seq<RiskAnalysis>, riskAnswers: seq<RiskAnswer>,
    archivingRequests: seq<string>)

  // ---- tables ----

  datatype Table =
    | Eservices | Descriptors | RejectionReasons | Interfaces | Documents | Attributes | RiskAnalyses | RiskAnswers
    | ArchivingSchedules | AsyncProperties | ArchivingRequests | TemplateRefs

  /** `tag` is the kind of an interface, or the form of a risk analysis or answer. */
  datatype Columns = Columns(text: string, serverUrls: seq<string>, tag: string)

  type Tables = Db<Table, Columns>

  const BUMPED := [
    Eservices, Descriptors, RejectionReasons, Interfaces, Documents, Attributes, RiskAnalyses, RiskAnswers,
    ArchivingSchedules, AsyncProperties, ArchivingRequests]

  const INTERFACE := "INTERFACE"
  const CALLBACK_INTERFACE := "ASYNC_EXCHANGE_CALLBACK_INTERFACE"

  function Root(id: Id): Key<Table> { RootKey(Eservices, id) }

  function DescriptorKey(id: Id): Key<Table> { Key(Descriptors, "", id, 0) }

  function InterfaceKey(id: Id): Key<Table> { Key(Interfaces, "", id, 0) }

  function DocumentKey(id: Id): Key<Table> { Key(Documents, "", id, 0) }

  function Text(text: string): Columns { Columns(text, [], "") }

  /** A row without its owner and version. */
  datatype Stored = Stored(key: Key<Table>, content: Content<Columns>)

  type Whole = map<Key<Table>, Content<Columns>>

  function Rowed(parts: seq<Stored>, eserviceId: Id, version: nat): seq<New<Table, Columns>> {
    seq(|parts|, i requires 0 <= i < |parts| =>
      New(parts[i].key, Row(eserviceId, parts[i].content.parent, version, parts[i].content.data)))
  }

  function Contents(parts: seq<Stored>): Whole {
    if parts == [] then map[]
    else Contents(parts[..|parts| - 1])[parts[|parts| - 1].key := parts[|parts| - 1].content]
  }

  // ---- splitting documents into rows ----

  function Below(d: Id, k: Key<Table>, c: Columns): Stored { Stored(k, Content(Some(d), c)) }

  function FirstParts(d: Descriptor): seq<Stored> {
    [Stored(DescriptorKey(d.id), Content(None, Columns(d.text, d.serverUrls, "")))]
    + (if d.interface.Some?
       then [Below(d.id, InterfaceKey(d.interface.value.id), Columns(d.interface.value.text, [], INTERFACE))] else [])
    + (if d.callbackInterface.Some?
       then [Below(d.id, InterfaceKey(d.callbackInterface.value.id),
                   Columns(d.callbackInterface.value.text, [], CALLBACK_INTERFACE))] else [])
  }

  function DocumentParts(d: Descriptor): seq<Stored> {
    seq(|d.docs|, i requires 0 <= i < |d.docs| => Below(d.id, DocumentKey(d.docs[i].id), Text(d.docs[i].text)))
  }

  function AttributeParts(d: Descriptor): seq<Stored> {
    seq(|d.attributes|, i requires 0 <= i < |d.attributes| =>
      Below(d.id, Key(Attributes, d.id, d.attributes[i].id, d.attributes[i].group), Text(d.attributes[i].text)))
  }

  /** Rejection reasons have no primary key of their own. */
  function ReasonParts(d: Descriptor): seq<Stored> {
    seq(|d.rejectionReasons|, i requires 0 <= i < |d.rejectionReasons| =>
      Below(d.id, Key(RejectionReasons, d.id, "", i), Text(d.rejectionReasons[i])))
  }

  function LastParts(d: Descriptor): seq<Stored> {
    (if d.archivingSchedule.Some?
     then [Below(d.id, Key(ArchivingSchedules, d.id, "", 0), Text(d.archivingSchedule.value))] else [])
    + (if d.asyncProperties.Some?
       then [Below(d.id, Key(AsyncProperties, d.id, "", 0), Text(d.asyncProperties.value))] else [])
  }

  /** Rows of one descriptor that both snapshots write. */
  function DescriptorParts(d: Descriptor): seq<Stored> {
    FirstParts(d) + DocumentParts(d) + AttributeParts(d) + ReasonParts(d) + LastParts(d)
  }

  /** Requests get generated ids. */
  function RequestParts(d: Descriptor): seq<Stored> {
    seq(|d.archivingRequests|, i requires 0 <= i < |d.archivingRequests| =>
      Below(d.id, Key(ArchivingRequests, d.id, "descriptor", i), Text(d.archivingRequests[i])))
  }

  /** Rows of one descriptor that only `upsertEService` writes. */
  function ExtraParts(d: Descriptor): seq<Stored> {
    (if d.templateRef.Some?
     then [Below(d.id, Key(TemplateRefs, d.id, d.templateRef.value.id, 0), Text(d.templateRef.value.text))] else [])
    + RequestParts(d)
  }

  function AllDescriptorParts(ds: seq<Descriptor>): seq<Stored> {
    if ds == [] then []
    else AllDescriptorParts(ds[..|ds| - 1]) + (DescriptorParts(ds[|ds| - 1]) + ExtraParts(ds[|ds| - 1]))
  }

  function RiskPart(table: Table, e: Eservice, id: Id, text: string, formId: Id): Stored {
    Stored(Key(table, e.id, id, 0), Content(None, Columns(text, [], formId)))
  }

  function RiskParts(e: Eservice): seq<Stored> {
    seq(|e.riskAnalyses|, i requires 0 <= i < |e.riskAnalyses| =>
      RiskPart(RiskAnalyses, e, e.riskAnalyses[i].id, e.riskAnalyses[i].text, e.riskAnalyses[i].formId))
  }

  function AnswerParts(e: Eservice): seq<Stored> {
    seq(|e.riskAnswers|, i requires 0 <= i < |e.riskAnswers| =>
      RiskPart(RiskAnswers, e, e.riskAnswers[i].id, e.riskAnswers[i].text, e.riskAnswers[i].formId))
  }

  function OwnRequestParts(e: Eservice): seq<Stored> {
    seq(|e.archivingRequests|, i requires 0 <= i < |e.archivingRequests| =>
      Stored(Key(ArchivingRequests, e.id, "eservice", i), Content(None, Text(e.archivingRequests[i]))))
  }

  function OwnParts(e: Eservice): seq<Stored> {
    [Stored(Root(e.id), Content(None, Text(e.text)))] + RiskParts(e) + AnswerParts(e) + OwnRequestParts(e)
  }

  function AllParts(e: Eservice): seq<Stored> {
    OwnParts(e) + AllDescriptorParts(e.descriptors)
  }

  /** A form belongs to one risk analysis of the e-service, and answers refer to a form. */
  predicate FormsOk(e: Eservice) {
    && (forall i, j | 0 <= i < j < |e.riskAnalyses| :: e.riskAnalyses[i].formId != e.riskAnalyses[j].formId)
    && forall a <- e.riskAnswers :: exists r <- e.riskAnalyses :: r.formId == a.formId
  }

  // ---- contents of a list of rows ----

  predicate HasKey(parts: seq<Stored>, k: Key<Table>) {
    exists i :: 0 <= i < |parts| && parts[i].key == k
  }

  lemma {:induction false} ContentsHold(parts: seq<Stored>)
    ensures forall k: Key<Table> :: k in Contents(parts) <==> HasKey(parts, k)
    ensures forall k <- Contents(parts) :: Stored(k, Contents(parts)[k]) in parts
  {
    if parts != [] {
      var init, last := parts[..|parts| - 1], parts[|parts| - 1];
      assert parts == init + [last];
      ContentsHold(init);
      forall k: Key<Table> ensures HasKey(parts, k) <==> HasKey(init, k) || k == last.key {
        if HasKey(init, k) { var i :| 0 <= i < |init| && init[i].key == k; assert parts[i].key == k; }
        assert k == last.key ==> parts[|init|].key == k;
      }
    }
  }

  predicate DistinctParts(parts: seq<Stored>) {
    forall i, j | 0 <= i < j < |parts| :: parts[i].key != parts[j].key
  }

  lemma {:induction false} DistinctContents(parts: seq<Stored>, p: Stored)
    requires DistinctParts(parts) && p in parts
    ensures p.key in Contents(parts) && Contents(parts)[p.key] == p.content
  {
    var n := |parts| - 1;
    if p != parts[n] {
      var i :| 0 <= i < n && parts[i] == p;
      assert parts[..n][i] == p;
      DistinctContents(parts[..n], p);
    }
  }

  lemma ContentsAre(parts: seq<Stored>, k: Key<Table>, c: Content<Columns>)
    requires DistinctParts(parts)
    ensures Lookup(Contents(parts), k) == Some(c) <==> Stored(k, c) in parts
  {
    ContentsHold(parts);
    if Stored(k, c) in parts { DistinctContents(parts, Stored(k, c)); }
  }

  lemma PartsOfDescriptor(ds: seq<Descriptor>, d: Descriptor, p: Stored)
    requires d in ds && p in DescriptorParts(d) + ExtraParts(d)
    ensures p in AllDescriptorParts(ds)
  {
    var n := |ds| - 1;
    assert ds == ds[..n] + [ds[n]];
    if d != ds[n] { PartsOfDescriptor(ds[..n], d, p); }
  }

  lemma {:induction false} DescriptorOfPart(ds: seq<Descriptor>, p: Stored)
    requires p in AllDescriptorParts(ds)
    ensures exists d <- ds :: p in DescriptorParts(d) + ExtraParts(d)
  {
    var n := |ds| - 1;
    var last := DescriptorParts(ds[n]) + ExtraParts(ds[n]);
    if p in last {
      assert ds[n] in ds;
    } else {
      DescriptorOfPart(ds[..n], p);
    }
  }

  predicate PartOf(e: Eservice, p: Stored) {
    p in OwnParts(e) || exists d <- e.descriptors :: p in DescriptorParts(d) + ExtraParts(d)
  }

  lemma PartsAre(e: Eservice, p: Stored)
    ensures p in AllParts(e) <==> PartOf(e, p)
  {
    if p in AllDescriptorParts(e.descriptors) { DescriptorOfPart(e.descriptors, p); }
    if exists d <- e.descriptors :: p in DescriptorParts(d) + ExtraParts(d) {
      var d :| d in e.descriptors && p in DescriptorParts(d) + ExtraParts(d);
      PartsOfDescriptor(e.descriptors, d, p);
    }
  }

  // ---- reading rows back ----

  /** A row below descriptor `d`. */
  predicate Holds(c: Content<Columns>, d: Id, text: string, tag: string) {
    c == Content(Some(d), Columns(text, [], tag))
  }

  /** A row that the descriptor's snapshots write, told from its table, key and content. */
  predicate IsRow(d: Descriptor, k: Key<Table>, c: Content<Columns>) {
    match k.table
    case Descriptors => k == Key(Descriptors, "", d.id, 0) && c == Content(None, Columns(d.text, d.serverUrls, ""))
    case Interfaces =>
      || (d.interface.Some? && k == Key(Interfaces, "", d.interface.value.id, 0)
          && Holds(c, d.id, d.interface.value.text, "INTERFACE"))
      || (d.callbackInterface.Some? && k == Key(Interfaces, "", d.callbackInterface.value.id, 0)
          && Holds(c, d.id, d.callbackInterface.value.text, "ASYNC_EXCHANGE_CALLBACK_INTERFACE"))
    case Documents => exists x <- d.docs :: k == Key(Documents, "", x.id, 0) && Holds(c, d.id, x.text, "")
    case Attributes => exists x <- d.attributes ::
      k == Key(Attributes, d.id, x.id, x.group) && Holds(c, d.id, x.text, "")
    case RejectionReasons =>
      && k == Key(RejectionReasons, d.id, "", k.n) && k.n < |d.rejectionReasons|
      && Holds(c, d.id, d.rejectionReasons[k.n], "")
    case ArchivingSchedules =>
      && d.archivingSchedule.Some? && k == Key(ArchivingSchedules, d.id, "", 0)
      && Holds(c, d.id, d.archivingSchedule.value, "")
    case AsyncProperties =>
      && d.asyncProperties.Some? && k == Key(AsyncProperties, d.id, "", 0)
           && Holds(c, d.id, d.asyncProperties.value, "")
    case _ => false
  }

  /** A row of the descriptor that only a snapshot of the whole e-service writes. */
  predicate IsExtraRow(d: Descriptor, k: Key<Table>, c: Content<Columns>) {
    match k.table
    case TemplateRefs =>
      && d.templateRef.Some? && k == Key(TemplateRefs, d.id, d.templateRef.value.id, 0)
      && Holds(c, d.id, d.templateRef.value.text, "")
    case ArchivingRequests =>
      && k == Key(ArchivingRequests, d.id, "descriptor", k.n) && k.n < |d.archivingRequests|
      && Holds(c, d.id, d.archivingRequests[k.n], "")
    case _ => false
  }

  /** A row of the e-service itself. */
  predicate IsOwnRow(e: Eservice, k: Key<Table>, c: Content<Columns>) {
    && c.parent.None?
    && match k.table
       case Eservices => k == Key(Eservices, "", e.id, 0) && c.data == Columns(e.text, [], "")
       case RiskAnalyses =>
         exists x <- e.riskAnalyses :: k == Key(RiskAnalyses, e.id, x.id, 0) && c.data == Columns(x.text, [], x.formId)
       case RiskAnswers =>
         exists x <- e.riskAnswers :: k == Key(RiskAnswers, e.id, x.id, 0) && c.data == Columns(x.text, [], x.formId)
       case ArchivingRequests =>
         && k == Key(ArchivingRequests, e.id, "eservice", k.n) && k.n < |e.archivingRequests|
         && c.data == Columns(e.archivingRequests[k.n], [], "")
       case _ => false
  }

  predicate IsEserviceRow(e: Eservice, k: Key<Table>, c: Content<Columns>) {
    IsOwnRow(e, k, c) || exists d <- e.descriptors :: IsRow(d, k, c) || IsExtraRow(d, k, c)
  }

  /** The rows are those of the snapshot: each of its fields has its row, and each row comes from one of its fields. */
  ghost predicate ReadsAs(w: Whole, e: Eservice) {
    forall k: Key<Table>, c: Content<Columns> :: Lookup(w, k) == Some(c) <==> IsEserviceRow(e, k, c)
  }

  lemma DocumentPartsRead(d: Descriptor, k: Key<Table>, c: Content<Columns>)
    ensures Stored(k, c) in DocumentParts(d) <==>
            exists x <- d.docs :: k == Key(Documents, "", x.id, 0) && Holds(c, d.id, x.text, "")
  {
    if x :| x in d.docs && k == Key(Documents, "", x.id, 0) && Holds(c, d.id, x.text, "") {
      var i :| 0 <= i < |d.docs| && d.docs[i] == x;
      assert DocumentParts(d)[i] == Stored(k, c);
    }
  }

  lemma AttributePartsRead(d: Descriptor, k: Key<Table>, c: Content<Columns>)
    ensures Stored(k, c) in AttributeParts(d) <==>
            exists x <- d.attributes :: k == Key(Attributes, d.id, x.id, x.group) && Holds(c, d.id, x.text, "")
  {
    if x :| x in d.attributes && k == Key(Attributes, d.id, x.id, x.group) && Holds(c, d.id, x.text, "") {
      var i :| 0 <= i < |d.attributes| && d.attributes[i] == x;
      assert AttributeParts(d)[i] == Stored(k, c);
    }
  }

  lemma ReasonPartsRead(d: Descriptor, k: Key<Table>, c: Content<Columns>)
    ensures Stored(k, c) in ReasonParts(d) <==>
            k == Key(RejectionReasons, d.id, "", k.n) && k.n < |d.rejectionReasons|
              && Holds(c, d.id, d.rejectionReasons[k.n], "")
  {
    if k == Key(RejectionReasons, d.id, "", k.n) && k.n < |d.rejectionReasons| {
      assert ReasonParts(d)[k.n].key == k;
    }
  }

  lemma DescriptorPartsRead(d: Descriptor, k: Key<Table>, c: Content<Columns>)
    ensures Stored(k, c) in DescriptorParts(d) <==> IsRow(d, k, c)
  {
    var p := Stored(k, c);
    DocumentPartsRead(d, k, c);
    AttributePartsRead(d, k, c);
    ReasonPartsRead(d, k, c);
    assert p in DescriptorParts(d) <==>
             || p in FirstParts(d) || p in DocumentParts(d) || p in AttributeParts(d) || p in ReasonParts(d)
             || p in LastParts(d);
  }

  lemma ExtraPartsRead(d: Descriptor, k: Key<Table>, c: Content<Columns>)
    ensures Stored(k, c) in ExtraParts(d) <==> IsExtraRow(d, k, c)
  {
    if k == Key(ArchivingRequests, d.id, "descriptor", k.n) && k.n < |d.archivingRequests| {
      assert RequestParts(d)[k.n].key == k;
    }
  }

  lemma OwnPartsRead(e: Eservice, k: Key<Table>, c: Content<Columns>)
    ensures Stored(k, c) in OwnParts(e) <==> IsOwnRow(e, k, c)
  {
    var p := Stored(k, c);
    if x :| x in e.riskAnalyses && p == RiskPart(RiskAnalyses, e, x.id, x.text, x.formId) {
      var i :| 0 <= i < |e.riskAnalyses| && e.riskAnalyses[i] == x;
      assert RiskParts(e)[i] == p;
    }
    if x :| x in e.riskAnswers && p == RiskPart(RiskAnswers, e, x.id, x.text, x.formId) {
      var i :| 0 <= i < |e.riskAnswers| && e.riskAnswers[i] == x;
      assert AnswerParts(e)[i] == p;
    }
    if k == Key(ArchivingRequests, e.id, "eservice", k.n) && k.n < |e.archivingRequests| {
      assert OwnRequestParts(e)[k.n].key == k;
    }
    assert p in OwnParts(e) <==>
             || p == Stored(Root(e.id), Content(None, Text(e.text))) || p in RiskParts(e) || p in AnswerParts(e)
             || p in OwnRequestParts(e);
  }

  /** The rows that a snapshot of an e-service inserts can be read back. */
  lemma SnapshotReads(e: Eservice)
    requires DistinctParts(AllParts(e))
    ensures ReadsAs(Contents(AllParts(e)), e)
  {
    forall k: Key<Table>, c: Content<Columns>
      ensures Lookup(Contents(AllParts(e)), k) == Some(c) <==> IsEserviceRow(e, k, c)
    {
      ContentsAre(AllParts(e), k, c);
      PartsAre(e, Stored(k, c));
      OwnPartsRead(e, k, c);
      forall d | d in e.descriptors
        ensures Stored(k, c) in DescriptorParts(d) + ExtraParts(d) <==> IsRow(d, k, c) || IsExtraRow(d, k, c)
      {
        DescriptorPartsRead(d, k, c);
        ExtraPartsRead(d, k, c);
      }
    }
  }
}
