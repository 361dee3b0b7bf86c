/** What one server's document says after any sequence of ingests with no other writer. */
module IngestHistory {
  import opened Documents
  import opened Store
  import opened IngestBuild
  import opened IngestSkip

  /** The stored document after these runs, oldest first: an unchanged server is only touched. */
  function Stored(runs: seq<Run>, freshId: string): Server
    requires runs != []
  {
    if |runs| == 1 then Build(runs[0], None, freshId)
    else
      var existing := Stored(runs[..|runs| - 1], freshId);
      Landed(Build(runs[|runs| - 1], Some(existing), freshId), existing)
  }

  function Landed(built: Server, existing: Server): Server {
    if StableView(built) == StableView(existing) then AsStored(built, existing) else built
  }

  /** The last value reported for a field; the default if none ever was. */
  function LastReported<T>(runs: seq<Run>, report: Record -> Option<T>, default: T): T {
    if runs == [] then default
    else
      var last := report(runs[|runs| - 1].record);
      if last.Some? then last.value else LastReported(runs[..|runs| - 1], report, default)
  }

  /** When the current run of unreachable records began. */
  function StreakStart(runs: seq<Run>): Option<Instant> {
    if runs == [] || runs[|runs| - 1].record.reachable then None
    else
      var before := StreakStart(runs[..|runs| - 1]);
      if before.Some? then before else Some(runs[|runs| - 1].now)
  }

  /** When the server's hardware was last read. */
  function LastRead(runs: seq<Run>): Option<Instant> {
    if runs == [] then None
    else
      var last := runs[|runs| - 1];
      var read := last.record.reachable || last.record.cpuSockets != None || last.record.memoryTotalBytes != None;
      if read then Some(last.now) else LastRead(runs[..|runs| - 1])
  }

  ghost predicate RemembersParts(hardware: Hardware, runs: seq<Run>) {
    && hardware.cpu.sockets == LastReported(runs, (r: Record) => r.cpuSockets, 0)
    && hardware.cpu.cores == LastReported(runs, (r: Record) => r.cpuCores, 0)
    && hardware.cpu.threads == LastReported(runs, (r: Record) => r.cpuThreads, 0)
    && hardware.cpu.model == LastReported(runs, (r: Record) => if r.cpuModel == None then None else Some(r.cpuModel), None)
    && hardware.memory.totalBytes == LastReported(runs, (r: Record) => r.memoryTotalBytes, 0)
    && hardware.memory.modules == LastReported(runs, (r: Record) => r.memoryModules, [])
    && hardware.storage.totalBytes == LastReported(runs, (r: Record) => r.storageTotalBytes, 0)
    && hardware.storage.drives == LastReported(runs, (r: Record) => r.storageDrives, [])
    && hardware.storage.controllers == LastReported(runs, (r: Record) => r.storageControllers, [])
    && hardware.storage.raid == LastReported(runs, (r: Record) => r.raidCheck, NO_RAID)
    && hardware.gpus == LastReported(runs, (r: Record) => r.gpus, [])
    && hardware.psus == LastReported(runs, (r: Record) => r.psus, [])
  }

  /** Whatever a run built, the stored document says it too: a skip loses nothing but a
      revision, a stamp and a counter. */
  lemma LandedSaysWhatWasBuilt(built: Server, existing: Server)
    ensures var landed := Landed(built, existing);
            && landed.hardware == built.hardware && landed.identity == built.identity
            && landed.network == built.network && landed.profileTemplate == built.profileTemplate
            && landed.model == built.model && landed.unreachableSince == built.unreachableSince
            && landed.lastSeenAt == built.lastSeenAt && landed.unreadFields == built.unreadFields
            && landed.siteFromBmc == built.siteFromBmc && landed.siteId == built.siteId
  {
  }

  lemma PartsGrow(run: Run, existing: Option<Server>, before: seq<Run>)
    requires if existing.Some? then RemembersParts(existing.value.hardware, before) else before == []
    ensures RemembersParts(BuildHardware(run.record, existing), before + [run])
  {
    assert (before + [run])[..|before|] == before;
  }

  /** An empty template clears the stored one. */
  function TemplateSaid(template: Option<string>): Option<Option<string>> {
    if template == None then None else if template == Some("") then Some(None) else Some(template)
  }

  ghost predicate RemembersFace(identity: Identity, network: Network, template: ProfileTemplate, runs: seq<Run>) {
    && identity.nicMacs == LastReported(runs, (r: Record) => r.nicMacs, [])
    // A BMC that answers without a MAC clears it; one that does not answer says nothing.
    && network.bmcMac ==
       LastReported(runs, (r: Record) => if r.bmcMac == None && !r.reachable then None else Some(r.bmcMac), None)
    // NICs and MACs both missing say nothing of the interfaces.
    && network.interfaces ==
       LastReported(runs, (r: Record) => if r.nics == [] && r.nicMacs == None then None else Some(r.nics), [])
    && template.name == LastReported(runs, (r: Record) => TemplateSaid(r.templateName), None)
    && template.externalId == LastReported(runs, (r: Record) => TemplateSaid(r.templateExternalId), None)
  }

  lemma FaceGrows(run: Run, existing: Option<Server>, before: seq<Run>)
    requires if existing.None? then before == []
             else RemembersFace(existing.value.identity, existing.value.network, existing.value.profileTemplate, before)
    ensures RemembersFace(BuildIdentity(run, existing), BuildNetwork(run, existing), BuildTemplate(run.record, existing),
                          before + [run])
  {
    assert (before + [run])[..|before|] == before;
    if existing.Some? { TemplatesAreNeverBlank(before); }
  }

  /** A cleared template is stored as none, never as an empty name. */
  lemma {:induction false} TemplatesAreNeverBlank(runs: seq<Run>)
    ensures var name := LastReported(runs, (r: Record) => TemplateSaid(r.templateName), None);
            var externalId := LastReported(runs, (r: Record) => TemplateSaid(r.templateExternalId), None);
            NonEmpty(name) == name && NonEmpty(externalId) == externalId
  {
    if runs != [] { TemplatesAreNeverBlank(runs[..|runs| - 1]); }
  }

  ghost predicate RemembersReach(server: Server, runs: seq<Run>) {
    && server.model == LastReported(runs, (r: Record) => if r.model == None && !r.reachable then None else Some(r.model), None)
    && server.unreachableSince == StreakStart(runs)
    && server.lastSeenAt == LastRead(runs)
  }

  /** How a run leaves the model, the streak and the last reading of a server it read as `existing`. */
  predicate Reaches(run: Run, existing: Option<Server>, server: Server) {
    var record := run.record;
    && server.model == (if record.model.Some? || record.reachable then record.model
                        else if existing.Some? then existing.value.model else None)
    && server.unreachableSince == (if record.reachable then None
                                   else if existing.Some? && existing.value.unreachableSince.Some?
                                   then existing.value.unreachableSince else Some(run.now))
    && server.lastSeenAt == (if record.reachable || HardwareRead(record) then Some(run.now)
                             else if existing.Some? then existing.value.lastSeenAt else None)
  }

  lemma DraftReaches(run: Run, existing: Option<Server>, freshId: string)
    ensures Reaches(run, existing, Draft(run, existing, freshId))
  {
  }

  lemma ReachGrows(run: Run, existing: Option<Server>, server: Server, before: seq<Run>)
    requires if existing.Some? then RemembersReach(existing.value, before) else before == []
    requires Reaches(run, existing, server)
    ensures RemembersReach(server, before + [run])
  {
    assert (before + [run])[..|before|] == before;
  }

  ghost predicate Remembers(server: Server, runs: seq<Run>) {
    && RemembersParts(server.hardware, runs)
    && RemembersFace(server.identity, server.network, server.profileTemplate, runs)
    && RemembersReach(server, runs)
  }

  /** The parts of a built document that no engine touches. */
  lemma BuiltParts(run: Run, existing: Option<Server>, freshId: string)
    ensures var built, draft := Build(run, existing, freshId), Draft(run, existing, freshId);
            && built.hardware == BuildHardware(run.record, existing)
            && built.identity == BuildIdentity(run, existing)
            && built.network == BuildNetwork(run, existing)
            && built.profileTemplate == BuildTemplate(run.record, existing)
            && built.model == draft.model && built.unreachableSince == draft.unreachableSince
            && built.lastSeenAt == draft.lastSeenAt && built.unreadFields == UnreadBy(run.record)
            && built.reachable == run.record.reachable
  {
    BuildIsJudgedDraft(run, existing, freshId);
  }

  lemma BuildRemembers(run: Run, existing: Option<Server>, freshId: string, before: seq<Run>)
    requires if existing.Some? then Remembers(existing.value, before) else before == []
    ensures Remembers(Build(run, existing, freshId), before + [run])
  {
    BuiltParts(run, existing, freshId);
    PartsGrow(run, existing, before);
    FaceGrows(run, existing, before);
    DraftReaches(run, existing, freshId);
    ReachGrows(run, existing, Build(run, existing, freshId), before);
  }

  /** Carry-forward over whole histories: every field a run may fail to read holds the last
      value actually reported, or its default; an unreachable server has been so since its
      current streak began, and a reachable one since no time. */
  lemma {:induction false} StoredRemembers(runs: seq<Run>, freshId: string)
    requires runs != []
    ensures Remembers(Stored(runs, freshId), runs)
  {
    var n := |runs| - 1;
    assert runs == runs[..n] + [runs[n]];
    if n == 0 {
      BuildRemembers(runs[n], None, freshId, []);
    } else {
      StoredRemembers(runs[..n], freshId);
      var existing := Stored(runs[..n], freshId);
      BuildRemembers(runs[n], Some(existing), freshId, runs[..n]);
      LandedSaysWhatWasBuilt(Build(runs[n], Some(existing), freshId), existing);
    }
  }

  /** Whether a run reported a field: the BMC's MAC counts as reported when the BMC answered
      without one, the interfaces when either NICs or MACs were read. */
  predicate Reported(record: Record, field: Field) {
    match field
    case BmcMac => record.bmcMac.Some? || record.reachable
    case NicMacs => record.nicMacs.Some?
    case TemplateName => record.templateName.Some?
    case TemplateExternalId => record.templateExternalId.Some?
    case Interfaces => record.nics != [] || record.nicMacs.Some?
    case CpuSockets => record.cpuSockets.Some?
    case CpuCores => record.cpuCores.Some?
    case CpuThreads => record.cpuThreads.Some?
    case CpuModel => record.cpuModel.Some?
    case MemoryTotalBytes => record.memoryTotalBytes.Some?
    case MemoryModules => record.memoryModules.Some?
    case StorageTotalBytes => record.storageTotalBytes.Some?
    case StorageDrives => record.storageDrives.Some?
    case StorageControllers => record.storageControllers.Some?
    case StorageRaid => record.raidCheck.Some?
    case Gpus => record.gpus.Some?
    case Psus => record.psus.Some?
  }

  lemma NoteIsExact<T>(report: Option<T>, noted: Field, field: Field)
    ensures field in Note(report, noted) <==> report.None? && field == noted
  {
  }

  lemma InThree(a: seq<Field>, b: seq<Field>, c: seq<Field>, field: Field)
    ensures field in a + b + c <==> field in a || field in b || field in c
  {
  }

  lemma FaceIsExact(record: Record, field: Field)
    ensures field in UnreadFace(record) <==>
              !Reported(record, field) && (field.BmcMac? || field.NicMacs? || field.TemplateName?
                                           || field.TemplateExternalId? || field.Interfaces?)
  {
  }

  lemma ComputeIsExact(record: Record, field: Field)
    ensures field in UnreadCompute(record) <==>
              !Reported(record, field) && (field.CpuSockets? || field.CpuCores? || field.CpuThreads? || field.CpuModel?
                                           || field.MemoryTotalBytes? || field.MemoryModules?)
  {
    NoteIsExact(record.cpuSockets, CpuSockets, field);
    NoteIsExact(record.cpuCores, CpuCores, field);
    NoteIsExact(record.cpuThreads, CpuThreads, field);
    NoteIsExact(record.cpuModel, CpuModel, field);
    NoteIsExact(record.memoryTotalBytes, MemoryTotalBytes, field);
    NoteIsExact(record.memoryModules, MemoryModules, field);
    InThree(Note(record.cpuSockets, CpuSockets), Note(record.cpuCores, CpuCores), Note(record.cpuThreads, CpuThreads), field);
    InThree(Note(record.cpuModel, CpuModel), Note(record.memoryTotalBytes, MemoryTotalBytes),
            Note(record.memoryModules, MemoryModules), field);
  }

  lemma DevicesAreExact(record: Record, field: Field)
    ensures field in UnreadDevices(record) <==>
              !Reported(record, field) && (field.StorageTotalBytes? || field.StorageDrives? || field.StorageControllers?
                                           || field.StorageRaid? || field.Gpus? || field.Psus?)
  {
    NoteIsExact(record.storageTotalBytes, StorageTotalBytes, field);
    NoteIsExact(record.storageDrives, StorageDrives, field);
    NoteIsExact(record.storageControllers, StorageControllers, field);
    NoteIsExact(record.raidCheck, StorageRaid, field);
    NoteIsExact(record.gpus, Gpus, field);
    NoteIsExact(record.psus, Psus, field);
    InThree(Note(record.storageTotalBytes, StorageTotalBytes), Note(record.storageDrives, StorageDrives),
            Note(record.storageControllers, StorageControllers), field);
    InThree(Note(record.raidCheck, StorageRaid), Note(record.gpus, Gpus), Note(record.psus, Psus), field);
  }

  /** A field the run did not report is named in its unread list, and only such a field. */
  lemma UnreadIsExact(record: Record, field: Field)
    ensures field in UnreadBy(record) <==> !Reported(record, field)
  {
    FaceIsExact(record, field);
    ComputeIsExact(record, field);
    DevicesAreExact(record, field);
  }

  /** No two fields share a path. */
  lemma PathsDiffer(a: Field, b: Field)
    requires PathOf(a) == PathOf(b)
    ensures a == b
  {
  }

  /** The unread list as it is stored: the paths of its fields. */
  function UnreadPaths(server: Server): seq<string> {
    seq(|server.unreadFields|, i requires 0 <= i < |server.unreadFields| => PathOf(server.unreadFields[i]))
  }

  lemma PathIsListed(server: Server, field: Field)
    ensures PathOf(field) in UnreadPaths(server) <==> field in server.unreadFields
  {
    var fields, paths := server.unreadFields, UnreadPaths(server);
    if field in fields {
      var i :| 0 <= i < |fields| && fields[i] == field;
      assert paths[i] == PathOf(field);
    }
    if PathOf(field) in paths {
      var i :| 0 <= i < |paths| && paths[i] == PathOf(field);
      PathsDiffer(fields[i], field);
    }
  }

  lemma UnreadAfter(runs: seq<Run>, freshId: string)
    requires runs != []
    ensures Stored(runs, freshId).unreadFields == UnreadBy(runs[|runs| - 1].record)
  {
    var n := |runs| - 1;
    if n == 0 {
      BuiltParts(runs[n], None, freshId);
    } else {
      var existing := Stored(runs[..n], freshId);
      BuiltParts(runs[n], Some(existing), freshId);
      LandedSaysWhatWasBuilt(Build(runs[n], Some(existing), freshId), existing);
    }
  }

  /** The stored unread list names a path exactly when the last run did not report its field,
      whatever came before it. */
  lemma UnreadIsOfTheLastRun(runs: seq<Run>, freshId: string, field: Field)
    requires runs != []
    ensures PathOf(field) in UnreadPaths(Stored(runs, freshId)) <==> !Reported(runs[|runs| - 1].record, field)
  {
    UnreadAfter(runs, freshId);
    UnreadIsExact(runs[|runs| - 1].record, field);
    PathIsListed(Stored(runs, freshId), field);
  }

  /** What a run always reads: whatever came before, the document says it as the last record does,
      in its normal form where it has one, stamped by that run. */
  lemma LastRecordShows(run: Run, existing: Option<Server>, freshId: string)
    ensures var record, built := run.record, Build(run, existing, freshId);
            && built.name == record.name && built.nameNormalized == NormalizeText(record.name)
            && built.modelNormalized == (if built.model == None then "" else NormalizeText(built.model.value))
            && built.tags == record.tags && built.managerId == record.managerId
            && built.sourceProvider == Some(run.providerType)
            && built.identity.vendor == run.vendor
            && built.identity.externalIds ==
               (if record.managerId == None || record.managerId == Some("") then map[]
                else map[record.managerId.value := record.externalId])
            && built.reachable == record.reachable
            && built.unreachableReason == (if record.reachable then None else record.unreachableReason)
            && built.listedAt == Some(run.now) && built.updatedAt == run.now
            && |built.connectivity.attachments| == |record.attachments|
            && (forall i | 0 <= i < |record.attachments| ::
                  built.connectivity.attachments[i] == Attachment(record.attachments[i], Some(run.now)))
            && built.connectivity.facts == run.engines.factsOf(record.attachments)
  {
    BuildIsJudgedDraft(run, existing, freshId);
  }

  /** Who the machine is: a record with a serial says; one without leaves what is stored, but for
      a system UUID of its own. */
  lemma SerialShows(run: Run, existing: Option<Server>, freshId: string)
    ensures var record, identity := run.record, Build(run, existing, freshId).identity;
            var serial := if record.serial == None then "" else NormalizeText(record.serial.value);
            && (serial != "" || existing == None ==>
                  identity.serial == record.serial && identity.serialNormalized == serial
                  && identity.systemUuid == record.systemUuid)
            && (serial == "" && existing != None ==>
                  && identity.serial == existing.value.identity.serial
                  && identity.serialNormalized == existing.value.identity.serialNormalized
                  && identity.systemUuid == (if record.systemUuid == None || record.systemUuid == Some("")
                                             then existing.value.identity.systemUuid else record.systemUuid))
  {
    BuildIsJudgedDraft(run, existing, freshId);
  }

  /** The engines judge what this run built: the classifier its name, vendor, collector, site,
      serial and model, counting one up; the health policies the server so classified. */
  lemma EnginesJudgeTheBuild(run: Run, existing: Option<Server>, freshId: string)
    ensures var built := Build(run, existing, freshId);
            && (run.engines.classify != None ==>
                  var verdict := run.engines.classify.value(
                                   Classifiable(run.record.name, run.vendor, run.providerType, built.siteId,
                                                built.identity.serial, built.model), run.now);
                  && built.classification.installationType == verdict.installationType
                  && built.classification.rule == verdict.rule
                  && built.classification.version == 1 + if existing == None then 0 else existing.value.classification.version)
            && (run.engines.evaluate != None ==>
                  exists judged: Server ::
                    && judged == built.(health := judged.health, searchTokens := judged.searchTokens)
                    && built.health.overall == run.engines.evaluate.value(judged, run.now).overall
                    && built.health.network == run.engines.evaluate.value(judged, run.now).network)
            && exists indexed: Server ::
                 indexed == built.(searchTokens := indexed.searchTokens) && built.searchTokens == run.engines.tokens(indexed)
  {
    var classified := Classified(run, existing, Draft(run, existing, freshId));
    var judged := Evaluated(run, classified);
    var built := Build(run, existing, freshId);
    assert judged == built.(searchTokens := judged.searchTokens) && built.searchTokens == run.engines.tokens(judged);
    assert classified == built.(health := classified.health, searchTokens := classified.searchTokens);
  }

  /** The start of the streak: null iff the last run reached the server; else the time of a run
      from which on none did, the one before it (if any) having reached it. */
  lemma {:induction false} StreakIsUnbroken(runs: seq<Run>) returns (first: nat)
    requires runs != []
    ensures StreakStart(runs).None? <==> runs[|runs| - 1].record.reachable
    ensures StreakStart(runs).Some? ==>
              && first < |runs| && StreakStart(runs) == Some(runs[first].now)
              && (forall k | first <= k < |runs| :: !runs[k].record.reachable)
              && (first > 0 ==> runs[first - 1].record.reachable)
  {
    var n := |runs| - 1;
    first := n;
    if n > 0 && !runs[n].record.reachable {
      var earlier := StreakIsUnbroken(runs[..n]);
      if StreakStart(runs[..n]).Some? { first := earlier; }
    }
  }

  function BmcOf(run: Run): BmcAddress {
    run.engines.parseBmc(run.record.bmcAddressRaw)
  }

  /** The site named by the last BMC address that could be read, or by none at the first run. */
  function BmcSite(runs: seq<Run>): Option<string>
    requires runs != []
  {
    var last := runs[|runs| - 1];
    if |runs| == 1 || BmcOf(last).parsed
    then last.engines.siteOfBmc(if BmcOf(last).parsed then BmcOf(last).host else None)
    else BmcSite(runs[..|runs| - 1])
  }

  lemma BuiltSite(run: Run, existing: Option<Server>, freshId: string)
    ensures Build(run, existing, freshId).siteFromBmc == SiteFromBmc(run, existing)
    ensures Build(run, existing, freshId).siteId ==
            Or(SiteFromBmc(run, existing),
               Or(run.engines.siteOfText(Some(run.record.name)), run.engines.siteOfText(run.record.profileDn)))
  {
    BuildIsJudgedDraft(run, existing, freshId);
  }

  lemma UnreadBmcKeepsSite(run: Run, existing: Server)
    requires run.engines.bmcPrefixes && !run.lacksBmcSite
    ensures SiteFromBmc(run, Some(existing)) ==
            if BmcOf(run).parsed then run.engines.siteOfBmc(BmcOf(run).host) else existing.siteFromBmc
  {
  }

  /** A document from before BMC sites were stored, with its BMC unread: its site counts as its
      BMC's only where neither name nor profile names one. Without prefixes nothing is kept. */
  lemma OlderDocumentsKeepTheirSite(run: Run, existing: Server, freshId: string)
    requires !BmcOf(run).parsed
    ensures var named := Truthy(run.engines.siteOfText(Some(run.record.name)))
                         || Truthy(run.engines.siteOfText(run.record.profileDn));
            var siteFromBmc := Build(run, Some(existing), freshId).siteFromBmc;
            && (run.engines.bmcPrefixes && run.lacksBmcSite ==>
                  siteFromBmc == if named then None else existing.siteId)
            && (!run.engines.bmcPrefixes ==> siteFromBmc == run.engines.siteOfBmc(None))
  {
    BuiltSite(run, Some(existing), freshId);
  }

  /** Where BMC prefixes are configured, a server stays at the site its BMC last named however
      often the BMC then goes unread; its name and then its profile speak only without one. */
  lemma {:induction false} BmcSiteIsRemembered(runs: seq<Run>, freshId: string)
    requires runs != [] && forall k | 0 <= k < |runs| :: runs[k].engines.bmcPrefixes && !runs[k].lacksBmcSite
    ensures var stored, last := Stored(runs, freshId), runs[|runs| - 1];
            && stored.siteFromBmc == BmcSite(runs)
            && stored.siteId == Or(BmcSite(runs), Or(last.engines.siteOfText(Some(last.record.name)),
                                                     last.engines.siteOfText(last.record.profileDn)))
  {
    var n := |runs| - 1;
    if n == 0 {
      BuiltSite(runs[0], None, freshId);
    } else {
      forall k | 0 <= k < n ensures runs[..n][k].engines.bmcPrefixes && !runs[..n][k].lacksBmcSite {
        assert runs[..n][k] == runs[k];
      }
      BmcSiteIsRemembered(runs[..n], freshId);
      var existing := Stored(runs[..n], freshId);
      BuiltSite(runs[n], Some(existing), freshId);
      LandedSaysWhatWasBuilt(Build(runs[n], Some(existing), freshId), existing);
      UnreadBmcKeepsSite(runs[n], existing);
    }
  }
}
