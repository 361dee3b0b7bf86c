/** Skipping an unchanged server: only its "last confirmed" stamps are refreshed. */
module IngestSkip {
  import opened Documents
  import opened Store
  import opened Operators
  import opened IngestBuild

  /** The part of a document two runs are compared by: all of it but its stamps, its live
      readings, its revision and its classification counter. */
  function StableView(server: Server): Server {
    var core := Core(server);
    core.(revision := 0, updatedAt := 0, classification := core.classification.(version := 0))
  }

  function SeenFieldsOf(server: Server, runsHealth: bool, runsClassification: bool): SeenFields {
    SeenFields(
      server.listedAt,
      server.lastSeenAt,
      if runsHealth then server.health.evaluatedAt else None,
      if runsClassification then server.classification.classifiedAt else None,
      if server.connectivity.attachments != [] then Some(server.connectivity.attachments[0].lastSeen) else None,
      seq(|server.hardware.gpus|, i requires 0 <= i < |server.hardware.gpus| =>
        Reading(server.hardware.gpus[i].temperatureCelsius, server.hardware.gpus[i].powerWatts)),
      seq(|server.hardware.psus|, i requires 0 <= i < |server.hardware.psus| => server.hardware.psus[i].powerWatts))
  }

  /** A skipped server as it is now stored. */
  function AsStored(server: Server, existing: Server): Server {
    server.(
    revision := existing.revision,
    updatedAt := existing.updatedAt,
    classification := server.classification.(version := existing.classification.version))
  }

  datatype Transition =
    | ServerCreated(vendor: Vendor, bornAs: string)
    | ServerRenamed(nameFrom: string, nameTo: string)
    | ClassificationChanged(typeFrom: InstallationType, typeTo: InstallationType)
    | HealthChanged(overallFrom: HealthSeverity, overallTo: HealthSeverity)

  /** What an ingest tells the audit log: a birth, a new name, a verdict unlike the one before. */
  function Transitions(existing: Option<Server>, server: Server, evaluated: bool): seq<Transition> {
    match existing
    case None => [ServerCreated(server.identity.vendor, server.name)]
    case Some(was) =>
      (if server.name != was.name then [ServerRenamed(was.name, server.name)] else [])
      + (if server.classification.installationType != was.classification.installationType
         then [ClassificationChanged(was.classification.installationType, server.classification.installationType)] else [])
      + (if evaluated && server.health.overall != was.health.overall
         then [HealthChanged(was.health.overall, server.health.overall)] else [])
  }

  /** The stamps of a built document, as the touch of an unchanged server relies on them. */
  lemma BuiltStamps(run: Run, existing: Server, freshId: string)
    ensures var built := Build(run, Some(existing), freshId);
            && built.listedAt == Some(run.now)
            && (built.lastSeenAt.None? ==> existing.lastSeenAt.None?)
            && (run.engines.evaluate.None? ==> built.health == existing.health)
            && (run.engines.evaluate.Some? ==> built.health.evaluatedAt.Some?)
            && (run.engines.classify.None? ==> built.classification == existing.classification)
            && (run.engines.classify.Some? ==> built.classification.classifiedAt.Some?)
            && (forall a | a in built.connectivity.attachments :: a.lastSeen == Some(run.now))
  {
    BuildIsJudgedDraft(run, Some(existing), freshId);
  }

  /** Equal attachments up to `lastSeen`, all of one stamp: setting that stamp gives the list. */
  lemma AttachmentsCatchUp(built: seq<Attachment>, existing: seq<Attachment>, now: Instant)
    requires UnseenAttachments(built) == UnseenAttachments(existing)
    requires forall a | a in built :: a.lastSeen == Some(now)
    ensures SeenAttachments(existing, if built != [] then Some(built[0].lastSeen) else None) == built
  {
    assert |built| == |UnseenAttachments(built)| == |existing|;
    forall i | 0 <= i < |built| ensures existing[i].(lastSeen := Some(now)) == built[i] {
      assert UnseenAttachments(built)[i] == UnseenAttachments(existing)[i];
      assert built[i] in built;
    }
  }

  lemma GpusCatchUp(built: seq<Gpu>, existing: seq<Gpu>, readings: seq<Reading>)
    requires UnreadGpus(built) == UnreadGpus(existing) && |readings| == |built|
    requires forall i | 0 <= i < |built| :: readings[i] == Reading(built[i].temperatureCelsius, built[i].powerWatts)
    ensures ReadGpus(existing, readings) == built
  {
    assert |built| == |UnreadGpus(built)| == |existing|;
    forall i | 0 <= i < |built| ensures ReadGpus(existing, readings)[i] == built[i] {
      assert UnreadGpus(built)[i] == UnreadGpus(existing)[i];
    }
  }

  lemma PsusCatchUp(built: seq<Psu>, existing: seq<Psu>, readings: seq<Option<real>>)
    requires UnreadPsus(built) == UnreadPsus(existing) && |readings| == |built|
    requires forall i | 0 <= i < |built| :: readings[i] == built[i].powerWatts
    ensures ReadPsus(existing, readings) == built
  {
    assert |built| == |UnreadPsus(built)| == |existing|;
    forall i | 0 <= i < |built| ensures ReadPsus(existing, readings)[i] == built[i] {
      assert UnreadPsus(built)[i] == UnreadPsus(existing)[i];
    }
  }

  /** What two equal stable views say, part by part. */
  lemma StableParts(a: Server, b: Server)
    requires StableView(a) == StableView(b)
    ensures b == a.(listedAt := b.listedAt, lastSeenAt := b.lastSeenAt, revision := b.revision, updatedAt := b.updatedAt,
                    health := a.health.(evaluatedAt := b.health.evaluatedAt),
                    classification := a.classification.(classifiedAt := b.classification.classifiedAt,
                                                        version := b.classification.version),
                    connectivity := a.connectivity.(attachments := b.connectivity.attachments),
                    hardware := a.hardware.(gpus := b.hardware.gpus, psus := b.hardware.psus))
    ensures UnseenAttachments(a.connectivity.attachments) == UnseenAttachments(b.connectivity.attachments)
    ensures UnreadGpus(a.hardware.gpus) == UnreadGpus(b.hardware.gpus)
    ensures UnreadPsus(a.hardware.psus) == UnreadPsus(b.hardware.psus)
  {
  }

  /** A touch of an unchanged server leaves the document a full write would have stored, but
      for its revision, its stamp of change and its classification counter. */
  lemma TouchStoresWhatWasBuilt(run: Run, existing: Server, freshId: string)
    requires StableView(Build(run, Some(existing), freshId)) == StableView(existing)
    ensures var built := Build(run, Some(existing), freshId);
            var fields := SeenFieldsOf(built, run.engines.evaluate.Some?, run.engines.classify.Some?);
            WithSeen(existing, fields) == AsStored(built, existing)
  {
    var built := Build(run, Some(existing), freshId);
    BuiltStamps(run, existing, freshId);
    CatchesUp(built, existing, run.now, run.engines.evaluate.Some?, run.engines.classify.Some?);
  }

  lemma CatchesUp(built: Server, existing: Server, now: Instant, evaluated: bool, classified: bool)
    requires StableView(built) == StableView(existing)
    requires built.lastSeenAt.None? ==> existing.lastSeenAt.None?
    requires if evaluated then built.health.evaluatedAt.Some? else built.health == existing.health
    requires if classified then built.classification.classifiedAt.Some? else built.classification == existing.classification
    requires forall a | a in built.connectivity.attachments :: a.lastSeen == Some(now)
    ensures WithSeen(existing, SeenFieldsOf(built, evaluated, classified)) == AsStored(built, existing)
  {
    StableParts(built, existing);
    var fields := SeenFieldsOf(built, evaluated, classified);
    AttachmentsCatchUp(built.connectivity.attachments, existing.connectivity.attachments, now);
    GpusCatchUp(built.hardware.gpus, existing.hardware.gpus, fields.gpus);
    PsusCatchUp(built.hardware.psus, existing.hardware.psus, fields.psus);
  }

  /** Skipping is right exactly when the stable views agree: a touch stores what was built
      if and only if the two documents differ in nothing a run can change. */
  lemma SkipIsExact(run: Run, existing: Server, freshId: string)
    ensures var built := Build(run, Some(existing), freshId);
            var fields := SeenFieldsOf(built, run.engines.evaluate.Some?, run.engines.classify.Some?);
            StableView(built) == StableView(existing) <==> WithSeen(existing, fields) == AsStored(built, existing)
  {
    var built := Build(run, Some(existing), freshId);
    var fields := SeenFieldsOf(built, run.engines.evaluate.Some?, run.engines.classify.Some?);
    if StableView(built) == StableView(existing) {
      TouchStoresWhatWasBuilt(run, existing, freshId);
    } else {
      TouchKeepsCore(existing, fields);
      StoredIsStable(built, existing);
      StableOfCore(WithSeen(existing, fields), existing);
    }
  }

  lemma StoredIsStable(server: Server, existing: Server)
    ensures StableView(AsStored(server, existing)) == StableView(server)
  {
  }

  lemma StableOfCore(a: Server, b: Server)
    requires Core(a) == Core(b)
    ensures StableView(a) == StableView(b)
  {
  }

  /** A skipped server had nothing to announce, and an event is announced only for a change
      the stable view shows. */
  lemma SkippedServersAreSilent(built: Server, existing: Server, evaluated: bool)
    requires StableView(built) == StableView(existing)
    ensures Transitions(Some(existing), built, evaluated) == []
  {
    StableParts(built, existing);
  }

  /** A full write announces a rename or a verdict exactly when the stored value changes, and
      from the value it replaces to the value it stores. */
  lemma WritesAnnounceEveryChange(run: Run, existing: Server, freshId: string, event: Transition)
    ensures var built := Build(run, Some(existing), freshId);
            event in Transitions(Some(existing), built, run.engines.evaluate.Some?) <==>
              match event
              case ServerCreated(_, _) => false
              case ServerRenamed(a, b) => a == existing.name && b == built.name && a != b
              case ClassificationChanged(a, b) =>
                && a == existing.classification.installationType && b == built.classification.installationType
                && a != b
              case HealthChanged(a, b) => a == existing.health.overall && b == built.health.overall && a != b
  {
    var built := Build(run, Some(existing), freshId);
    BuiltStamps(run, existing, freshId);
    AnnouncesEveryChange(built, existing, run.engines.evaluate.Some?, event);
  }

  lemma AnnouncesEveryChange(built: Server, existing: Server, evaluated: bool, event: Transition)
    requires !evaluated ==> built.health == existing.health
    ensures event in Transitions(Some(existing), built, evaluated) <==>
              match event
              case ServerCreated(_, _) => false
              case ServerRenamed(a, b) => a == existing.name && b == built.name && a != b
              case ClassificationChanged(a, b) =>
                && a == existing.classification.installationType && b == built.classification.installationType
                && a != b
              case HealthChanged(a, b) => a == existing.health.overall && b == built.health.overall && a != b
  {
  }
}
