/** The `servers` document and the vocabulary it is written in.

    Values a property never looks inside (a DIMM, a drive, a health reason) are
    kept in their JSON form. Instants are integers counted in seconds. */
module Documents {

  datatype Option<+T> = None | Some(value: T)

  type Json = string
  type Instant = int

  datatype Vendor = Dell | Cisco | Hp | Standalone

  datatype HealthSeverity = Unknown | Healthy | Warning | Major | Critical

  datatype InstallationType = HostedCluster | Mce | Upi | Unclassified

  datatype OpenShiftState = Available | Installed | InstalledToInventory

  datatype ManagerType = OpenManage | UcsManager | UcsCentral | Intersight | OneView | RedfishStandalone

  /** The fields of a document that a run may fail to read. */
  datatype Field =
    | BmcMac | NicMacs | TemplateName | TemplateExternalId | Interfaces
    | CpuSockets | CpuCores | CpuThreads | CpuModel
    | MemoryTotalBytes | MemoryModules
    | StorageTotalBytes | StorageDrives | StorageControllers | StorageRaid
    | Gpus | Psus

  /** The path a field is named by in `unread_fields`. */
  function PathOf(field: Field): string {
    match field
    case BmcMac => "network.bmc.mac"
    case NicMacs => "identity.nic_macs"
    case TemplateName => "profile_template.name"
    case TemplateExternalId => "profile_template.external_id"
    case Interfaces => "network.interfaces"
    case CpuSockets => "hardware.cpu.sockets"
    case CpuCores => "hardware.cpu.cores"
    case CpuThreads => "hardware.cpu.threads"
    case CpuModel => "hardware.cpu.model"
    case MemoryTotalBytes => "hardware.memory.total_bytes"
    case MemoryModules => "hardware.memory.modules"
    case StorageTotalBytes => "hardware.storage.total_bytes"
    case StorageDrives => "hardware.storage.drives"
    case StorageControllers => "hardware.storage.controllers"
    case StorageRaid => "hardware.storage.raid"
    case Gpus => "hardware.gpus"
    case Psus => "hardware.power.psus"
  }

  datatype Identity = Identity(
    vendor: Vendor,
    serial: Option<string>,
    serialNormalized: string,
    systemUuid: Option<string>,
    nicMacs: seq<string>,
    externalIds: map<string, string>)

  datatype ProfileTemplate = ProfileTemplate(name: Option<string>, externalId: Option<string>)

  datatype Cpu = Cpu(sockets: int, cores: int, threads: int, model: Option<string>)

  datatype Memory = Memory(totalBytes: int, modules: seq<Json>)

  datatype Storage = Storage(totalBytes: int, drives: seq<Json>, controllers: seq<Json>, raid: Json)

  // `content` is every field of the part except its live readings.
  datatype Gpu = Gpu(content: Json, temperatureCelsius: Option<real>, powerWatts: Option<real>)

  datatype Psu = Psu(content: Json, powerWatts: Option<real>)

  datatype Hardware = Hardware(cpu: Cpu, memory: Memory, storage: Storage, gpus: seq<Gpu>, psus: seq<Psu>)

  // `address` is the parsed BMC address without its host and MAC.
  datatype Network = Network(address: Json, bmcHost: Option<string>, bmcMac: Option<string>, interfaces: seq<Json>)

  datatype Attachment = Attachment(content: Json, lastSeen: Option<Instant>)

  datatype Connectivity = Connectivity(attachments: seq<Attachment>, facts: Json)

  datatype Classification = Classification(
    installationType: InstallationType,
    rule: Json,
    classifiedAt: Option<Instant>,
    version: nat)

  // `categories` is every category but the network one, with the firing policies.
  datatype Health = Health(
    overall: HealthSeverity,
    network: HealthSeverity,
    categories: Json,
    evaluatedAt: Option<Instant>)

  datatype Maintenance = Maintenance(
    enabled: bool,
    reason: Option<string>,
    createdBy: Option<string>,
    createdAt: Option<Instant>,
    updatedAt: Option<Instant>,
    expectedEnd: Option<Instant>)

  datatype Reservation = Reservation(
    holder: Option<string>,
    mceCluster: Option<string>,
    infraEnv: Option<string>,
    namespace: Option<string>,
    workflowId: Option<string>,
    createdAt: Option<Instant>,
    expiresAt: Option<Instant>)
  {
    /** Held by somebody, and not past its expiry if it has one. */
    predicate IsLive(now: Instant) {
      holder.Some? && (expiresAt.None? || now < expiresAt.value)
    }
  }

  datatype Lifecycle = Lifecycle(
    state: OpenShiftState,
    clusterName: Option<string>,
    mceName: Option<string>,
    lastReportedAt: Option<Instant>,
    reportedBy: Option<string>,
    reportedName: Option<string>,
    agentUid: Option<string>,
    previousReporter: Option<string>,
    previousAgentUid: Option<string>,
    claimChangedAt: Option<Instant>,
    contestedWith: Option<string>,
    contestedName: Option<string>)

  datatype Server = Server(
    id: string,
    name: string,
    nameNormalized: string,
    model: Option<string>,
    modelNormalized: string,
    identity: Identity,
    profileTemplate: ProfileTemplate,
    hardware: Hardware,
    network: Network,
    connectivity: Connectivity,
    classification: Classification,
    health: Health,
    maintenance: Maintenance,
    reservation: Reservation,
    openshift: Lifecycle,
    siteId: Option<string>,
    siteFromBmc: Option<string>,
    siteFromName: Option<string>,
    managerId: Option<string>,
    tags: seq<string>,
    searchTokens: seq<string>,
    sourceProvider: Option<ManagerType>,
    lastSeenAt: Option<Instant>,
    reachable: bool,
    unreachableSince: Option<Instant>,
    unreachableReason: Option<string>,
    listedAt: Option<Instant>,
    unreadFields: seq<Field>,
    revision: int,
    createdAt: Instant,
    updatedAt: Instant)

  const NO_RESERVATION := Reservation(None, None, None, None, None, None, None)

  const NO_MAINTENANCE := Maintenance(false, None, None, None, None, None)

  const UNCLAIMED := Lifecycle(Available, None, None, None, None, None, None, None, None, None, None, None)

  const UNCLASSIFIED := Classification(Unclassified, "", None, 0)

  const UNEVALUATED := Health(Unknown, Unknown, "", None)

  /** A string field the original tests for truth: present and not empty. */
  predicate Truthy(text: Option<string>) {
    text.Some? && text.value != ""
  }

  predicate IsSpace(c: char) {
    c == ' ' || c == '\t' || c == '\n' || c == '\r'
  }

  function LowerChar(c: char): char {
    if 'A' <= c <= 'Z' then c - 'A' + 'a' else c
  }

  /** Lower case, with runs of white space collapsed to one space and none at the ends. */
  function NormalizeText(text: string): string {
    NormalizeFrom(text, false)
  }

  // `gap` says that white space was skipped after a word already written.
  function NormalizeFrom(text: string, gap: bool): string
    decreases |text|
  {
    if text == "" then ""
    else if IsSpace(text[0]) then NormalizeFrom(SkipSpace(text), gap)
    else
      var word := TakeWord(text);
      (if gap then " " else "") + word + NormalizeFrom(text[|word|..], true)
  }

  function SkipSpace(text: string): (rest: string)
    ensures |rest| <= |text|
    ensures text != "" && IsSpace(text[0]) ==> |rest| < |text|
  {
    if text != "" && IsSpace(text[0]) then SkipSpace(text[1..]) else text
  }

  function TakeWord(text: string): (word: string)
    ensures |word| <= |text|
    ensures text != "" && !IsSpace(text[0]) ==> |word| > 0
  {
    if text == "" || IsSpace(text[0]) then "" else [LowerChar(text[0])] + TakeWord(text[1..])
  }
}
