/** From a provider's record to a document: `IngestService._build_server`.

    What a collector can leave unread is an option, `None` when it was left unread. */
module IngestBuild {
  import opened Documents
  import opened Store
  import opened Operators
  import opened Protocol

  // What a server whose RAID was never read stores.
  const NO_RAID: Json := "{}"

  /** One provider record: its MACs normalized, its parts in the form they are stored in. */
  datatype Record = Record(
    externalId: string,
    name: string,
    model: Option<string>,
    serial: Option<string>,
    systemUuid: Option<string>,
    reachable: bool,
    unreachableReason: Option<string>,
    nicMacs: Option<seq<string>>,
    bmcAddressRaw: Option<string>,
    bmcMac: Option<string>,
    nics: seq<Json>,
    managerId: Option<string>,
    profileDn: Option<string>,
    templateName: Option<string>,
    templateExternalId: Option<string>,
    cpuSockets: Option<int>,
    cpuCores: Option<int>,
    cpuThreads: Option<int>,
    cpuModel: Option<string>,
    memoryTotalBytes: Option<int>,
    memoryModules: Option<seq<Json>>,
    storageTotalBytes: Option<int>,
    storageDrives: Option<seq<Json>>,
    storageControllers: Option<seq<Json>>,
    raidCheck: Option<Json>,
    gpus: Option<seq<Gpu>>,
    psus: Option<seq<Psu>>,
    attachments: seq<Json>,
    tags: seq<string>)

  datatype BmcAddress = BmcAddress(parsed: bool, address: Json, host: Option<string>)

  datatype Classifiable = Classifiable(
    name: string,
    vendor: Vendor,
    managerType: ManagerType,
    siteId: Option<string>,
    serial: Option<string>,
    model: Option<string>)

  /** The engines and parsers of one run. An absent engine does not run. */
  datatype Engines = Engines(
    classify: Option<(Classifiable, Instant) -> ClassVerdict>,
    evaluate: Option<(Server, Instant) -> HealthVerdict>,
    tokens: Server -> seq<string>,
    siteOfText: Option<string> -> Option<string>,
    siteOfBmc: Option<string> -> Option<string>,
    bmcPrefixes: bool,
    parseBmc: Option<string> -> BmcAddress,
    factsOf: seq<Json> -> Json)

  /** One record as it is ingested: read when, under which engines and vendor. `lacksBmcSite`
      says that the stored document predates the field naming its BMC's site. */
  datatype Run = Run(
    record: Record,
    vendor: Vendor,
    providerType: ManagerType,
    engines: Engines,
    now: Instant,
    lacksBmcSite: bool)

  /** A field that could not be read keeps its stored value; a new server takes the default. */
  function CarryForward<T>(reported: Option<T>, previous: Option<T>, default: T): T {
    if reported.Some? then reported.value else if previous.Some? then previous.value else default
  }

  function NonEmpty(text: Option<string>): Option<string> {
    if Truthy(text) then text else None
  }

  function Or(a: Option<string>, b: Option<string>): Option<string> {
    if Truthy(a) then a else b
  }

  function Previous<T>(existing: Option<Server>, field: Server -> T): Option<T> {
    if existing.Some? then Some(field(existing.value)) else None
  }

  // What each record says of the fields that are not reported as they are stored.

  /** A BMC that answered without a MAC clears it; one that answered nothing says nothing. */
  function BmcMacRead(record: Record): Option<Option<string>> {
    if record.bmcMac.None? && !record.reachable then None else Some(record.bmcMac)
  }

  /** Interfaces count as read when the record lists any NIC or says which MACs there are. */
  function InterfacesRead(record: Record): Option<seq<Json>> {
    if record.nics != [] || record.nicMacs.Some? then Some(record.nics) else None
  }

  function ModelRead(record: Record): Option<Option<string>> {
    if record.model.None? && !record.reachable then None else Some(record.model)
  }

  function Nullable(text: Option<string>): Option<Option<string>> {
    if text.None? then None else Some(text)
  }

  function HardwareRead(record: Record): bool {
    record.cpuSockets.Some? || record.memoryTotalBytes.Some?
  }

  function Note<T>(report: Option<T>, field: Field): seq<Field> {
    if report.None? then [field] else []
  }

  /** Every field the record leaves out, in the order the build asks for them. */
  function UnreadBy(record: Record): seq<Field> {
    UnreadFace(record) + UnreadCompute(record) + UnreadDevices(record)
  }

  function UnreadFace(record: Record): seq<Field> {
    Note(BmcMacRead(record), BmcMac)
    + Note(record.nicMacs, NicMacs)
    + Note(record.templateName, TemplateName)
    + Note(record.templateExternalId, TemplateExternalId)
    + Note(InterfacesRead(record), Interfaces)
  }

  function UnreadCompute(record: Record): seq<Field> {
    (Note(record.cpuSockets, CpuSockets) + Note(record.cpuCores, CpuCores) + Note(record.cpuThreads, CpuThreads))
    + (Note(record.cpuModel, CpuModel) + Note(record.memoryTotalBytes, MemoryTotalBytes)
       + Note(record.memoryModules, MemoryModules))
  }

  function UnreadDevices(record: Record): seq<Field> {
    (Note(record.storageTotalBytes, StorageTotalBytes) + Note(record.storageDrives, StorageDrives)
     + Note(record.storageControllers, StorageControllers))
    + (Note(record.raidCheck, StorageRaid) + Note(record.gpus, Gpus) + Note(record.psus, Psus))
  }

  function BuildIdentity(run: Run, existing: Option<Server>): Identity {
    var record := run.record;
    var carried := NormalizeSerial(record) == "" && existing.Some?;
    Identity(
      run.vendor,
      if carried then existing.value.identity.serial else record.serial,
      if carried then existing.value.identity.serialNormalized else NormalizeSerial(record),
      if carried then Or(record.systemUuid, existing.value.identity.systemUuid) else record.systemUuid,
      CarryForward(record.nicMacs, Previous(existing, (s: Server) => s.identity.nicMacs), []),
      if Truthy(record.managerId) then map[record.managerId.value := record.externalId] else map[])
  }

  function NormalizeSerial(record: Record): string {
    if record.serial.Some? then NormalizeText(record.serial.value) else ""
  }

  function BuildTemplate(record: Record, existing: Option<Server>): ProfileTemplate {
    ProfileTemplate(
      NonEmpty(CarryForward(Nullable(record.templateName),
                            Previous(existing, (s: Server) => s.profileTemplate.name), None)),
      NonEmpty(CarryForward(Nullable(record.templateExternalId),
                            Previous(existing, (s: Server) => s.profileTemplate.externalId), None)))
  }

  function BuildNetwork(run: Run, existing: Option<Server>): Network {
    var bmc := run.engines.parseBmc(run.record.bmcAddressRaw);
    Network(
      bmc.address,
      if bmc.parsed then bmc.host else None,
      CarryForward(BmcMacRead(run.record), Previous(existing, (s: Server) => s.network.bmcMac), None),
      CarryForward(InterfacesRead(run.record), Previous(existing, (s: Server) => s.network.interfaces), []))
  }

  function BuildHardware(record: Record, existing: Option<Server>): Hardware {
    Hardware(
      Cpu(CarryForward(record.cpuSockets, Previous(existing, (s: Server) => s.hardware.cpu.sockets), 0),
          CarryForward(record.cpuCores, Previous(existing, (s: Server) => s.hardware.cpu.cores), 0),
          CarryForward(record.cpuThreads, Previous(existing, (s: Server) => s.hardware.cpu.threads), 0),
          CarryForward(Nullable(record.cpuModel), Previous(existing, (s: Server) => s.hardware.cpu.model), None)),
      Memory(CarryForward(record.memoryTotalBytes, Previous(existing, (s: Server) => s.hardware.memory.totalBytes), 0),
             CarryForward(record.memoryModules, Previous(existing, (s: Server) => s.hardware.memory.modules), [])),
      Storage(CarryForward(record.storageTotalBytes, Previous(existing, (s: Server) => s.hardware.storage.totalBytes), 0),
              CarryForward(record.storageDrives, Previous(existing, (s: Server) => s.hardware.storage.drives), []),
              CarryForward(record.storageControllers, Previous(existing, (s: Server) => s.hardware.storage.controllers), []),
              CarryForward(record.raidCheck, Previous(existing, (s: Server) => s.hardware.storage.raid), NO_RAID)),
      CarryForward(record.gpus, Previous(existing, (s: Server) => s.hardware.gpus), []),
      CarryForward(record.psus, Previous(existing, (s: Server) => s.hardware.psus), []))
  }

  function BuildConnectivity(run: Run): Connectivity {
    Connectivity(
      seq(|run.record.attachments|, i requires 0 <= i < |run.record.attachments| =>
        Attachment(run.record.attachments[i], Some(run.now))),
      run.engines.factsOf(run.record.attachments))
  }

  /** The site the BMC names; one whose BMC was not read this run keeps what it said. */
  function SiteFromBmc(run: Run, existing: Option<Server>): Option<string> {
    var bmc := run.engines.parseBmc(run.record.bmcAddressRaw);
    if !bmc.parsed && existing.Some? && run.engines.bmcPrefixes then
      if !run.lacksBmcSite then existing.value.siteFromBmc
      else if Truthy(run.engines.siteOfText(Some(run.record.name))) || Truthy(run.engines.siteOfText(run.record.profileDn))
      then None
      else existing.value.siteId
    else run.engines.siteOfBmc(if bmc.parsed then bmc.host else None)
  }

  /** The document before any engine has judged it. */
  function Draft(run: Run, existing: Option<Server>, freshId: string): Server {
    var record := run.record;
    var siteFromBmc := SiteFromBmc(run, existing);
    var siteFromName := run.engines.siteOfText(Some(record.name));
    var siteId := Or(siteFromBmc, Or(siteFromName, run.engines.siteOfText(record.profileDn)));
    var model := CarryForward(ModelRead(record), Previous(existing, (s: Server) => s.model), None);
    Server(
      if existing.Some? then existing.value.id else freshId,
      record.name,
      NormalizeText(record.name),
      model,
      if model.Some? then NormalizeText(model.value) else "",
      BuildIdentity(run, existing),
      BuildTemplate(record, existing),
      BuildHardware(record, existing),
      BuildNetwork(run, existing),
      BuildConnectivity(run),
      if existing.Some? then existing.value.classification else UNCLASSIFIED,
      if existing.Some? then existing.value.health else UNEVALUATED,
      if existing.Some? then existing.value.maintenance else NO_MAINTENANCE,
      if existing.Some? then existing.value.reservation else NO_RESERVATION,
      if existing.Some? then existing.value.openshift else UNCLAIMED,
      siteId,
      siteFromBmc,
      siteFromName,
      record.managerId,
      record.tags,
      [],
      Some(run.providerType),
      if record.reachable || HardwareRead(record) then Some(run.now)
      else if existing.Some? then existing.value.lastSeenAt else None,
      record.reachable,
      if record.reachable then None
      else if existing.Some? && existing.value.unreachableSince.Some? then existing.value.unreachableSince
      else Some(run.now),
      if record.reachable then None else record.unreachableReason,
      Some(run.now),
      UnreadBy(record),
      if existing.Some? then existing.value.revision + 1 else 1,
      if existing.Some? then existing.value.createdAt else run.now,
      run.now)
  }

  function Classified(run: Run, existing: Option<Server>, draft: Server): Server {
    if run.engines.classify.None? then draft
    else
      var verdict := run.engines.classify.value(
                       Classifiable(run.record.name, run.vendor, run.providerType, draft.siteId,
                                    draft.identity.serial, draft.model), run.now);
      draft.(classification :=
        ClassificationFrom(verdict, if existing.Some? then existing.value.classification.version else 0))
  }

  function Evaluated(run: Run, classified: Server): Server {
    if run.engines.evaluate.None? then classified
    else classified.(health := HealthFrom(run.engines.evaluate.value(classified, run.now)))
  }

  function Build(run: Run, existing: Option<Server>, freshId: string): Server {
    var judged := Evaluated(run, Classified(run, existing, Draft(run, existing, freshId)));
    judged.(searchTokens := run.engines.tokens(judged))
  }

  /** Only the engines touch what the draft says of classification and health, and nothing else. */
  lemma BuildIsJudgedDraft(run: Run, existing: Option<Server>, freshId: string)
    ensures var built, draft := Build(run, existing, freshId), Draft(run, existing, freshId);
            && built == draft.(classification := built.classification, health := built.health,
                               searchTokens := built.searchTokens)
            && (run.engines.classify.None? ==> built.classification == draft.classification)
            && (run.engines.classify.Some? ==> built.classification.classifiedAt.Some?)
            && (run.engines.evaluate.None? ==> built.health == draft.health)
            && (run.engines.evaluate.Some? ==> built.health.evaluatedAt.Some?)
  {
  }

  /** The correlation found a document this record may be written over: the machine with its
      serial and vendor, a document without a serial, or, for a record without one, the document
      whose vendor it was given. */
  predicate Correlated(run: Run, existing: Server) {
    || existing.identity.serialNormalized == ""
    || (&& run.vendor == existing.identity.vendor
        && (NormalizeSerial(run.record) == "" || NormalizeSerial(run.record) == existing.identity.serialNormalized))
  }

  /** Every document an ingest builds keeps what others own and who the machine is. */
  lemma BuildKeeps(run: Run, existing: Server, freshId: string)
    requires Correlated(run, existing)
    ensures IngestKeeps(existing, Build(run, Some(existing), freshId),
                        run.engines.classify.Some?, run.engines.evaluate.Some?)
  {
    BuildIsJudgedDraft(run, Some(existing), freshId);
  }

  lemma BuildIsNewborn(run: Run, freshId: string)
    ensures Newborn(Build(run, None, freshId)) && Build(run, None, freshId).id == freshId
    ensures var built := Build(run, None, freshId);
            && built.createdAt == run.now
            && (run.engines.classify.None? ==>
                  built.classification.installationType == Unclassified && built.classification.version == 0
                  && built.classification.classifiedAt == None)
            && (run.engines.evaluate.None? ==>
                  built.health.overall == Unknown && built.health.network == Unknown && built.health.evaluatedAt == None)
  {
    BuildIsJudgedDraft(run, None, freshId);
  }

  /** The identity a build writes: a serial once known survives a run that reads none. */
  lemma BuildRemembersSerial(run: Run, existing: Server, freshId: string)
    ensures var built := Build(run, Some(existing), freshId);
            && (NormalizeSerial(run.record) == "" ==>
                  && built.identity.serial == existing.identity.serial
                  && built.identity.serialNormalized == existing.identity.serialNormalized)
            && (NormalizeSerial(run.record) != "" ==>
                  built.identity.serialNormalized == NormalizeSerial(run.record))
            && (built.identity.serialNormalized == "" ==> existing.identity.serialNormalized == "" && NormalizeSerial(run.record) == "")
  {
    BuildIsJudgedDraft(run, Some(existing), freshId);
  }
}
