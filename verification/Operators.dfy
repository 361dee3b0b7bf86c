/** The other single-field writers: `MaintenanceService` and the two re-evaluation endpoints. */
module Operators {
  import opened Documents
  import opened Store

  datatype ClassVerdict = ClassVerdict(installationType: InstallationType, rule: Json, at: Instant)

  datatype HealthVerdict = HealthVerdict(overall: HealthSeverity, network: HealthSeverity, categories: Json, at: Instant)

  datatype MaintenanceEvent = MaintenanceEnabled | MaintenanceUpdated | MaintenanceDisabled

  datatype Result = Stored(server: Server) | Failed(why: WriteOutcome)

  function ClassificationFrom(verdict: ClassVerdict, previousVersion: nat): Classification {
    Classification(verdict.installationType, verdict.rule, Some(verdict.at), previousVersion + 1)
  }

  function HealthFrom(verdict: HealthVerdict): Health {
    Health(verdict.overall, verdict.network, verdict.categories, Some(verdict.at))
  }

  function Enabled(server: Server, reason: Option<string>, expectedEnd: Option<Instant>, actor: string, now: Instant): Server {
    var window := server.maintenance;
    server.(
    maintenance := Maintenance(
      true, reason,
      if window.enabled then window.createdBy else Some(actor),
      if window.enabled then window.createdAt else Some(now),
      Some(now), expectedEnd),
    revision := server.revision + 1,
    updatedAt := now)
  }

  function Disabled(server: Server, now: Instant): Server {
    server.(
    maintenance := NO_MAINTENANCE.(updatedAt := Some(now)),
    revision := server.revision + 1,
    updatedAt := now)
  }

  function Reclassified(server: Server, verdict: ClassVerdict, now: Instant): Server {
    server.(
    classification := ClassificationFrom(verdict, server.classification.version),
    revision := server.revision + 1,
    updatedAt := now)
  }

  function Recalculated(server: Server, verdict: HealthVerdict, now: Instant): Server {
    server.(health := HealthFrom(verdict), revision := server.revision + 1, updatedAt := now)
  }

  function Answer(outcome: WriteOutcome, server: Server): Result {
    if outcome == Written then Stored(server) else Failed(outcome)
  }

  /** Each part of a verdict lands in its own field, and nothing but the judged part, the revision
      and the stamp moves; a classification also counts one up. */
  lemma VerdictsLandWhereTheyBelong(server: Server, judged: ClassVerdict, health: HealthVerdict, now: Instant)
    ensures var after := Reclassified(server, judged, now);
            && after.classification.installationType == judged.installationType && after.classification.rule == judged.rule
            && after.classification.classifiedAt == Some(judged.at)
            && after.classification.version == server.classification.version + 1
            && after == server.(classification := after.classification, revision := server.revision + 1, updatedAt := now)
    ensures var after := Recalculated(server, health, now);
            && after.health.overall == health.overall && after.health.network == health.network
            && after.health.categories == health.categories && after.health.evaluatedAt == Some(health.at)
            && after == server.(health := after.health, revision := server.revision + 1, updatedAt := now)
  {
  }

  /** A window that is enabled is open, says why and until when, and closes without a trace but
      the moment it closed. */
  lemma WindowOpensAndCloses(server: Server, reason: Option<string>, end: Option<Instant>, actor: string, now: Instant)
    ensures var during := Enabled(server, reason, end, actor, now);
            && during.maintenance.enabled && during.maintenance.reason == reason && during.maintenance.expectedEnd == end
            && during.maintenance.updatedAt == Some(now)
            && (!server.maintenance.enabled ==>
                  during.maintenance.createdBy == Some(actor) && during.maintenance.createdAt == Some(now))
            && during == server.(maintenance := during.maintenance, revision := server.revision + 1, updatedAt := now)
    ensures var closed := Disabled(server, now);
            && closed.maintenance == Maintenance(false, None, None, None, Some(now), None)
            && closed == server.(maintenance := closed.maintenance, revision := server.revision + 1, updatedAt := now)
  {
  }

  /** Updating an open window keeps who opened it and when; a window opened again after a
      disable starts afresh. */
  lemma WindowKeepsItsOpening(server: Server, r0: Option<string>, r1: Option<string>, e0: Option<Instant>,
                              e1: Option<Instant>, a0: string, a1: string, t0: Instant, t1: Instant, t2: Instant)
    ensures var first := Enabled(server, r0, e0, a0, t0);
            var updated := Enabled(first, r1, e1, a1, t1);
            var reopened := Enabled(Disabled(first, t1), r1, e1, a1, t2);
            && updated.maintenance.createdBy == first.maintenance.createdBy
            && updated.maintenance.createdAt == first.maintenance.createdAt
            && updated.maintenance.reason == r1 && updated.maintenance.expectedEnd == e1
            && reopened.maintenance.createdBy == Some(a1) && reopened.maintenance.createdAt == Some(t2)
  {
    assert Enabled(server, r0, e0, a0, t0).maintenance.enabled;
  }

  /** What a caller is told of its write: the server it stored, or what kept it from being stored. */
  lemma AnswerTellsWhatHappened(docs: Collection, server: Server, expected: int)
    ensures var answer := Answer(ReplaceIfRevision(docs, server, expected).0, server);
            && (answer == Failed(Missing) <==> server.id !in docs)
            && (answer == Failed(RevisionConflict) <==> server.id in docs && docs[server.id].revision != expected)
            && (answer.Stored? ==> answer.server == server)
            && (answer.Stored? <==>
                  server.id in docs && docs[server.id].revision == expected && !Collides(docs, server))
  {
  }

  class MaintenanceService {
    const repo: ServerRepository
    var trail: seq<MaintenanceEvent>

    constructor (repo: ServerRepository)
      ensures this.repo == repo && trail == []
    {
      this.repo := repo;
      trail := [];
    }

    method Enable(id: string, reason: Option<string>, expectedEnd: Option<Instant>, actor: string, now: Instant,
                  others: Collection -> Collection)
      returns (result: Result)
      requires Keyed(repo.docs)
      modifies repo, this`trail
      ensures id !in old(repo.docs) ==>
                result == Failed(Missing) && repo.docs == old(repo.docs) && trail == old(trail)
      ensures id in old(repo.docs) ==>
                var read := old(repo.docs)[id];
                var built := Enabled(read, reason, expectedEnd, actor, now);
                var (outcome, after) := ReplaceIfRevision(others(old(repo.docs)), built, read.revision);
                && repo.docs == after && result == Answer(outcome, built)
                && trail == old(trail) +
                            (if outcome != Written then []
                             else if read.maintenance.enabled then [MaintenanceUpdated] else [MaintenanceEnabled])
    {
      var found := repo.GetById(id);
      if found.None? { return Failed(Missing); }
      var server := found.value;
      var expectedRevision := server.revision;
      var wasEnabled := server.maintenance.enabled;
      var createdBy := if !wasEnabled then Some(actor) else server.maintenance.createdBy;
      var createdAt := if wasEnabled then server.maintenance.createdAt else Some(now);
      server := server.(maintenance := Maintenance(true, reason, createdBy, createdAt, Some(now), expectedEnd));
      server := server.(revision := server.revision + 1);
      server := server.(updatedAt := now);
      repo.docs := others(repo.docs);
      var outcome := repo.UpsertWithRevisionCheck(server, expectedRevision);
      if outcome == Written {
        trail := trail + [if wasEnabled then MaintenanceUpdated else MaintenanceEnabled];
      }
      return Answer(outcome, server);
    }

    method Disable(id: string, now: Instant, others: Collection -> Collection) returns (result: Result)
      requires Keyed(repo.docs)
      modifies repo, this`trail
      ensures id !in old(repo.docs) ==>
                result == Failed(Missing) && repo.docs == old(repo.docs) && trail == old(trail)
      ensures id in old(repo.docs) ==>
                var read := old(repo.docs)[id];
                var (outcome, after) := ReplaceIfRevision(others(old(repo.docs)), Disabled(read, now), read.revision);
                && repo.docs == after && result == Answer(outcome, Disabled(read, now))
                && trail == old(trail) +
                            (if outcome == Written && read.maintenance.enabled then [MaintenanceDisabled] else [])
    {
      var found := repo.GetById(id);
      if found.None? { return Failed(Missing); }
      var server := found.value;
      var expectedRevision := server.revision;
      var wasEnabled := server.maintenance.enabled;
      server := server.(maintenance := Maintenance(false, None, None, None, Some(now), None));
      server := server.(revision := server.revision + 1);
      server := server.(updatedAt := now);
      repo.docs := others(repo.docs);
      var outcome := repo.UpsertWithRevisionCheck(server, expectedRevision);
      if outcome == Written && wasEnabled {
        trail := trail + [MaintenanceDisabled];
      }
      return Answer(outcome, server);
    }
  }

  datatype VerdictEvent =
    | TypeChanged(typeFrom: InstallationType, typeTo: InstallationType)
    | SeverityChanged(overallFrom: HealthSeverity, overallTo: HealthSeverity)

  /** The two endpoints that judge one server anew, each with its engine. */
  class Reevaluation {
    const repo: ServerRepository
    var trail: seq<VerdictEvent>

    constructor (repo: ServerRepository)
      ensures this.repo == repo && trail == []
    {
      this.repo := repo;
      trail := [];
    }

    method ReclassifyServer(id: string, classify: Server -> ClassVerdict, now: Instant, others: Collection -> Collection)
      returns (result: Result)
      requires Keyed(repo.docs)
      modifies repo, this`trail
      ensures id !in old(repo.docs) ==>
                result == Failed(Missing) && repo.docs == old(repo.docs) && trail == old(trail)
      ensures id in old(repo.docs) ==>
                var read := old(repo.docs)[id];
                var built := Reclassified(read, classify(read), now);
                var (outcome, after) := ReplaceIfRevision(others(old(repo.docs)), built, read.revision);
                && repo.docs == after && result == Answer(outcome, built)
                && trail == old(trail) +
                            (var was, became := read.classification.installationType, built.classification.installationType;
                             if outcome == Written && became != was then [TypeChanged(was, became)] else [])
    {
      var found := repo.GetById(id);
      if found.None? { return Failed(Missing); }
      var server := found.value;
      var expectedRevision := server.revision;
      var previousType := server.classification.installationType;
      server := server.(classification := ClassificationFrom(classify(server), server.classification.version));
      server := server.(revision := server.revision + 1);
      server := server.(updatedAt := now);
      repo.docs := others(repo.docs);
      var outcome := repo.UpsertWithRevisionCheck(server, expectedRevision);
      if outcome == Written && server.classification.installationType != previousType {
        trail := trail + [TypeChanged(previousType, server.classification.installationType)];
      }
      return Answer(outcome, server);
    }

    method RecalculateServerHealth(id: string, evaluate: Server -> HealthVerdict, now: Instant,
                                   others: Collection -> Collection)
      returns (result: Result)
      requires Keyed(repo.docs)
      modifies repo, this`trail
      ensures id !in old(repo.docs) ==>
                result == Failed(Missing) && repo.docs == old(repo.docs) && trail == old(trail)
      ensures id in old(repo.docs) ==>
                var read := old(repo.docs)[id];
                var built := Recalculated(read, evaluate(read), now);
                var (outcome, after) := ReplaceIfRevision(others(old(repo.docs)), built, read.revision);
                && repo.docs == after && result == Answer(outcome, built)
                && trail == old(trail) +
                            (var was, became := read.health.overall, built.health.overall;
                             if outcome == Written && became != was then [SeverityChanged(was, became)] else [])
    {
      var found := repo.GetById(id);
      if found.None? { return Failed(Missing); }
      var server := found.value;
      var expectedRevision := server.revision;
      var previous := server.health;
      server := server.(health := HealthFrom(evaluate(server)));
      server := server.(revision := server.revision + 1);
      server := server.(updatedAt := now);
      repo.docs := others(repo.docs);
      var outcome := repo.UpsertWithRevisionCheck(server, expectedRevision);
      if outcome == Written && server.health.overall != previous.overall {
        trail := trail + [SeverityChanged(previous.overall, server.health.overall)];
      }
      return Answer(outcome, server);
    }
  }
}
