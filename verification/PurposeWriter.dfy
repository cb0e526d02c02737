/** The purpose consumer, V2 messages: what one does to both tables when handlers run one at a time. */
module PurposeWriter {
  import opened Basics
  import opened PlatformModel

  datatype VersionState = ActiveVersion | SuspendedVersion | OtherVersion

  datatype PurposeVersion = PurposeVersion(id: Id, state: VersionState)

  datatype Purpose = Purpose(id: Id, eserviceId: Id, consumerId: Id, versions: seq<PurposeVersion>)
  {
    function Owner(): ConsumerEservice { ConsumerEservice(consumerId, eserviceId) }
  }

  /** `getPurposeStateFromPurposeVersions` */
  function StateOf(versions: seq<PurposeVersion>): ItemState {
    if exists v <- versions :: v.state == ActiveVersion then Active else Inactive
  }

  /** `getLastSuspendedOrActivatedPurposeVersion` */
  function FindLive(versions: seq<PurposeVersion>): Option<PurposeVersion> {
    if versions == [] then None
    else if versions[0].state == ActiveVersion || versions[0].state == SuspendedVersion then Some(versions[0])
    else FindLive(versions[1..])
  }

  function SetRow(pf: Platform, id: Id, row: PurposeRow): Platform {
    pf.(purposes := pf.purposes[id := row])
  }

  /** Agreement and descriptor rows as the activation handler reads them. */
  function ActivationPatch(pf: Platform, p: Purpose, state: ItemState, versionId: Id): Patch {
    var a := Lookup(pf.agreements, p.Owner());
    JoinPurpose(p.Owner(), state, versionId, a,
                if a.Some? then Lookup(pf.catalog, EserviceDescriptor(p.eserviceId, a.value.descriptorId)) else None)
  }

  datatype EventV2 =
    | PurposeActivated
    | PurposeVersionChanged(versionId: Id)    // new version, suspension and unsuspension
    | PurposeArchived(versionId: Id)
    | OtherV2

  function HandleV2(s: Store, event: EventV2, p: Purpose, version: nat): Result<Store> {
    var row := Lookup(s.platform.purposes, p.id);
    var state := StateOf(p.versions);
    match event
    case PurposeActivated =>
      var live := FindLive(p.versions);
      if live.None? then Failed
      else if row.Some? && row.value.version > version then Ok(s)
      else Ok(Store(SetRow(s.platform, p.id, PurposeRow(state, live.value.id, p.eserviceId, p.consumerId, version)),
                    PatchAll(s.tokens, ByPurpose(p.id), ActivationPatch(s.platform, p, state, live.value.id))))
    case PurposeVersionChanged(versionId) =>
      if row.None? || row.value.version > version then Ok(s)
      else
        var row' := row.value.(state := state, purposeVersionId := versionId, version := version);
        Ok(Store(SetRow(s.platform, p.id, row'),
                 PatchAll(s.tokens, ByPurpose(p.id), SetPurpose(p.consumerId, state, versionId))))
    case PurposeArchived(versionId) =>
      Ok(Store(s.platform.(purposes := s.platform.purposes - {p.id}),
               PatchAll(s.tokens, ByPurpose(p.id), SetPurpose(p.consumerId, state, versionId))))
    case OtherV2 => Ok(s)
  }
}
