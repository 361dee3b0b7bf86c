/** The services carry out the protocol: what each of them writes is the plan of its job, and
    what each announces is its entry in the audit trail. */
module Refinement {
  import opened Documents
  import opened Store
  import opened Protocol
  import Claims
  import IngestBuild
  import IngestLoop
  import IngestSkip
  import Membership
  import Operators
  import Ownership
  import Reconciler
  import Reservations

  /** An ingest attempt as a flight of the protocol. */
  function FlightOf(a: IngestLoop.Attempt, now: Instant): Flight {
    match a.existing
    case None => Flight(None, Creating(a.built), now)
    case Some(existing) =>
      Flight(a.existing,
             if a.idle then Touching(IngestLoop.FieldsOf(a))
             else Ingesting(a.built, a.run.engines.classify.Some?, a.run.engines.evaluate.Some?),
             now)
  }

  /** An ingest's write, whatever it comes to, is its flight landing. */
  lemma IngestWritesItsPlan(current: Collection, a: IngestLoop.Attempt, now: Instant)
    ensures var (wrote, docs) := Land(current, FlightOf(a, now));
            var (outcome, after) := IngestLoop.Write(current, a);
            docs == after && (wrote <==> outcome == Written && !(a.existing.Some? && a.idle))
  {
  }

  /** And it is a flight the protocol allows: it begins as a read of the document found, at the
      moment it was found, or as the birth of a new one. */
  lemma IngestFlightMayBegin(first: Collection, second: Collection, world: IngestLoop.World, task: IngestLoop.Task,
                             vendor: Vendor, attempt: nat, s: State, writer: nat)
    requires writer !in s.flights && world.freshId(attempt) !in s.used
    requires var found := IngestLoop.Correlate(first, second, world, task, vendor);
             found.Some? ==> found.value.id in s.docs && s.docs[found.value.id] == found.value
    ensures var a := IngestLoop.Prepare(first, second, world, task, vendor, attempt);
            var flight := FlightOf(a, s.clock);
            match a.existing
            case None => Possible(s, BeginCreate(writer, a.built))
            case Some(existing) =>
              && Possible(s, Begin(writer, existing.id, flight.job))
              && Apply(s, Begin(writer, existing.id, flight.job)).flights[writer] == flight
  {
    IngestLoop.AttemptFits(first, second, world, task, vendor, attempt);
  }

  /** A membership write that changes anything is the plan of a joining flight. */
  lemma MembershipWritesItsPlan(server: Server, updated: Lifecycle, now: Instant)
    requires !Claims.SameMembership(server.openshift, updated)
    ensures Plans(Flight(Some(server), Joining(updated), now)) ==
            Replace(Membership.Rewritten(server, updated, now), server.revision)
  {
  }

  /** What a service that reads `read` stores on `current` is its flight landing. */
  ghost predicate Lands(current: Collection, read: Server, job: Job, now: Instant, built: Server) {
    var (outcome, after) := ReplaceIfRevision(current, built, read.revision);
    Land(current, Flight(Some(read), job, now)) == (outcome == Written, after)
  }

  ghost predicate StaysAway(current: Collection, read: Server, job: Job, now: Instant) {
    Land(current, Flight(Some(read), job, now)) == (false, current)
  }

  /** `ReservationService.Reserve` writes its plan, and where it refuses its plan is to stop. */
  lemma ReserveWritesItsPlan(current: Collection, read: Server, request: Reservations.ReserveRequest, now: Instant)
    ensures if Reservations.MayReserve(read.reservation, request, now)
            then Lands(current, read, Reserving(request), now, Reservations.Reserved(read, request, now))
            else StaysAway(current, read, Reserving(request), now)
  {
  }

  /** `ReservationService.Release` likewise: an unheld server and somebody else's lock are left alone. */
  lemma ReleaseWritesItsPlan(current: Collection, read: Server, holder: Option<string>, workflowId: Option<string>,
                             now: Instant)
    ensures if Reservations.MayRelease(read.reservation, holder, workflowId, now)
            then Lands(current, read, Releasing(holder, workflowId), now, Reservations.Released(read, now))
            else StaysAway(current, read, Releasing(holder, workflowId), now)
  {
  }

  /** `MaintenanceService.Enable` and `Disable` write their plans. */
  lemma MaintenanceWritesItsPlan(current: Collection, read: Server, reason: Option<string>, end: Option<Instant>,
                                 actor: string, now: Instant)
    ensures Lands(current, read, Enabling(reason, end, actor), now, Operators.Enabled(read, reason, end, actor, now))
    ensures Lands(current, read, Disabling, now, Operators.Disabled(read, now))
  {
  }

  /** The two endpoints that judge a server anew write their plans. */
  lemma VerdictsWriteTheirPlans(current: Collection, read: Server, judged: Operators.ClassVerdict,
                                health: Operators.HealthVerdict, now: Instant)
    ensures Lands(current, read, Reclassifying(judged), now, Operators.Reclassified(read, judged, now))
    ensures Lands(current, read, Recalculating(health), now, Operators.Recalculated(read, health, now))
  {
  }

  /** Any of these services, carried out against whatever the other writers left, changes the
      collection as one commit of the protocol does: its document alone, to the next revision of
      what it read, or nothing. */
  lemma ServiceCommitIsExact(current: Collection, read: Server, job: Job, now: Instant, built: Server)
    requires Keyed(current) && UniqueMachines(current) && Fits(job, read) && Lands(current, read, job, now, built)
    requires built.id == read.id && built.revision == read.revision + 1
    ensures var (wrote, after) := Land(current, Flight(Some(read), job, now));
            && Keyed(after) && UniqueMachines(after) && after.Keys == current.Keys
            && (!wrote ==> after == current)
            && (wrote ==> read.id in current && current[read.id].revision == read.revision
                          && after == current[read.id := built])
  {
    ReplaceIsExact(current, built, read.revision);
  }

  /** An ingest's events about one part of a document, as the audit trail knows them. */
  function Told(events: seq<IngestSkip.Transition>, facet: Ownership.Facet, revision: int): seq<Ownership.Transition> {
    if events == [] then [] else AsTold(events[0], facet, revision) + Told(events[1..], facet, revision)
  }

  function AsTold(event: IngestSkip.Transition, facet: Ownership.Facet, revision: int): seq<Ownership.Transition> {
    match event
    case ServerRenamed(a, b) =>
      if facet.Name? then [Ownership.Transition(Ownership.NameIs(a), Ownership.NameIs(b), revision)] else []
    case ClassificationChanged(a, b) =>
      if facet.Type? then [Ownership.Transition(Ownership.TypeIs(a), Ownership.TypeIs(b), revision)] else []
    case HealthChanged(a, b) =>
      if facet.Severity? then [Ownership.Transition(Ownership.SeverityIs(a), Ownership.SeverityIs(b), revision)] else []
    case ServerCreated(_, _) => []
  }

  lemma {:induction false} ToldOfBoth(a: seq<IngestSkip.Transition>, b: seq<IngestSkip.Transition>, facet: Ownership.Facet,
                                      revision: int)
    ensures Told(a + b, facet, revision) == Told(a, facet, revision) + Told(b, facet, revision)
  {
    if a == [] {
      assert a + b == b;
    } else {
      assert (a + b)[1..] == a[1..] + b;
      ToldOfBoth(a[1..], b, facet, revision);
    }
  }

  lemma ToldOfOne(event: IngestSkip.Transition, facet: Ownership.Facet, revision: int)
    ensures Told([event], facet, revision) == AsTold(event, facet, revision)
  {
    assert Told([event][1..], facet, revision) == [];
  }

  function Change(told: bool, before: Ownership.FacetValue, after: Ownership.FacetValue, revision: int): seq<Ownership.Transition> {
    if told && before != after then [Ownership.Transition(before, after, revision)] else []
  }

  lemma ToldByIngest(existing: Server, built: Server, evaluated: bool, facet: Ownership.Facet)
    ensures Told(IngestSkip.Transitions(Some(existing), built, evaluated), facet, built.revision) ==
            Change(facet.Name?, Ownership.NameIs(existing.name), Ownership.NameIs(built.name), built.revision)
            + Change(facet.Type?, Ownership.TypeIs(existing.classification.installationType),
                     Ownership.TypeIs(built.classification.installationType), built.revision)
            + Change(facet.Severity? && evaluated, Ownership.SeverityIs(existing.health.overall),
                     Ownership.SeverityIs(built.health.overall), built.revision)
  {
    var revision := built.revision;
    var rename := IngestSkip.ServerRenamed(existing.name, built.name);
    var verdict := IngestSkip.ClassificationChanged(existing.classification.installationType,
                                                   built.classification.installationType);
    var health := IngestSkip.HealthChanged(existing.health.overall, built.health.overall);
    var renamed := if built.name != existing.name then [rename] else [];
    var classed := if verdict.typeFrom != verdict.typeTo then [verdict] else [];
    var judged := if evaluated && health.overallFrom != health.overallTo then [health] else [];
    assert IngestSkip.Transitions(Some(existing), built, evaluated) == renamed + classed + judged;
    ToldOfBoth(renamed + classed, judged, facet, revision);
    ToldOfBoth(renamed, classed, facet, revision);
    ToldOfOne(rename, facet, revision);
    ToldOfOne(verdict, facet, revision);
    ToldOfOne(health, facet, revision);
  }

  lemma TrailOfIngest(existing: Server, built: Server, classified: bool, evaluated: bool, decided: Instant, at: Instant,
                      facet: Ownership.Facet)
    requires Ownership.Audited(facet)
    ensures var entry := Entry(Flight(Some(existing), Ingesting(built, classified, evaluated), decided), built, at);
            Ownership.EventOf(entry, facet) ==
            Change(facet.Name? || (facet.Type? && classified) || (facet.Severity? && evaluated),
                   Ownership.ValueOf(existing, facet), Ownership.ValueOf(built, facet), built.revision)
  {
  }

  /** What an ingest announces about a document it read is exactly what the audit trail holds
      of its commit. */
  lemma IngestTellsTheTrail(existing: Server, built: Server, classified: bool, evaluated: bool, decided: Instant,
                            at: Instant, facet: Ownership.Facet)
    requires IngestKeeps(existing, built, classified, evaluated)
    ensures var entry := Entry(Flight(Some(existing), Ingesting(built, classified, evaluated), decided), built, at);
            Told(IngestSkip.Transitions(Some(existing), built, evaluated), facet, built.revision)
            == if Ownership.Audited(facet) then Ownership.EventOf(entry, facet) else []
  {
    ToldByIngest(existing, built, evaluated, facet);
    if Ownership.Audited(facet) { TrailOfIngest(existing, built, classified, evaluated, decided, at, facet); }
  }

  /** The state event of a membership write is its commit's entry in the audit trail. */
  lemma MembershipTellsTheTrail(server: Server, updated: Lifecycle, now: Instant, at: Instant)
    requires !Claims.SameMembership(server.openshift, updated)
    ensures var after := Membership.Rewritten(server, updated, now);
            var entry := Entry(Flight(Some(server), Joining(updated), now), after, at);
            var events := Reconciler.StateEvent(server.id, server.openshift, updated);
            Ownership.EventOf(entry, Ownership.LifecycleState) ==
            if events == [] then []
            else [Ownership.Transition(Ownership.StateIs(events[0].before), Ownership.StateIs(events[0].after), after.revision)]
  {
  }

  /** The events the two verdict endpoints announce, as the audit trail knows them. */
  function ToldByEndpoint(event: Operators.VerdictEvent, revision: int): Ownership.Transition {
    match event
    case TypeChanged(a, b) => Ownership.Transition(Ownership.TypeIs(a), Ownership.TypeIs(b), revision)
    case SeverityChanged(a, b) => Ownership.Transition(Ownership.SeverityIs(a), Ownership.SeverityIs(b), revision)
  }

  /** What reclassifying announces is its commit's entry in the audit trail. */
  lemma ReclassifyTellsTheTrail(read: Server, judged: Operators.ClassVerdict, now: Instant, at: Instant)
    ensures var built := Operators.Reclassified(read, judged, now);
            var entry := Entry(Flight(Some(read), Reclassifying(judged), now), built, at);
            var was, became := read.classification.installationType, built.classification.installationType;
            Ownership.EventOf(entry, Ownership.Type) ==
            (if became != was then [ToldByEndpoint(Operators.TypeChanged(was, became), built.revision)] else [])
            && Ownership.EventOf(entry, Ownership.Severity) == []
  {
  }

  /** What recalculating health announces is its commit's entry in the audit trail. */
  lemma RecalculateTellsTheTrail(read: Server, health: Operators.HealthVerdict, now: Instant, at: Instant)
    ensures var built := Operators.Recalculated(read, health, now);
            var entry := Entry(Flight(Some(read), Recalculating(health), now), built, at);
            var was, became := read.health.overall, built.health.overall;
            Ownership.EventOf(entry, Ownership.Severity) ==
            (if became != was then [ToldByEndpoint(Operators.SeverityChanged(was, became), built.revision)] else [])
            && Ownership.EventOf(entry, Ownership.Type) == []
  {
  }
}
