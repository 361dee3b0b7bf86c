/** What the protocol guarantees about each part of a document: only its owner moves it,
    no owner's write is ever lost, and the audit events form unbroken chains. */
module Ownership {
  import opened Documents
  import opened Store
  import opened Protocol

  datatype Facet = Name | Type | Severity | Membership | LifecycleState | Window | Lock

  datatype FacetValue =
    | NameIs(name: string)
    | TypeIs(installationType: InstallationType)
    | SeverityIs(severity: HealthSeverity)
    | MembershipIs(lifecycle: Lifecycle)
    | StateIs(state: OpenShiftState)
    | WindowIs(maintenance: Maintenance)
    | LockIs(reservation: Reservation)

  function ValueOf(server: Server, facet: Facet): FacetValue {
    match facet
    case Name => NameIs(server.name)
    case Type => TypeIs(server.classification.installationType)
    case Severity => SeverityIs(server.health.overall)
    case Membership => MembershipIs(server.openshift)
    case LifecycleState => StateIs(server.openshift.state)
    case Window => WindowIs(server.maintenance)
    case Lock => LockIs(server.reservation)
  }

  /** Which writers may move which part of an existing document. */
  predicate Owns(job: Job, facet: Facet) {
    match facet
    case Name => job.Ingesting?
    case Type => (job.Ingesting? && job.classified) || job.Reclassifying?
    case Severity => (job.Ingesting? && job.evaluated) || job.Recalculating?
    case Membership => job.Joining?
    case LifecycleState => job.Joining?
    case Window => job.Enabling? || job.Disabling?
    case Lock => job.Reserving? || job.Releasing?
  }

  /** A document changes in one part, in one step, only when the owner of that part commits
      a version it built from the value stored at that very moment. */
  lemma OnlyTheOwnerMovesIt(s: State, step: Step, id: string, facet: Facet)
    requires Sound(s) && Possible(s, step)
    requires id in s.docs && id in Apply(s, step).docs
    ensures ValueOf(Apply(s, step).docs[id], facet) != ValueOf(s.docs[id], facet) ==>
              && step.Commit?
              && Land(s.docs, s.flights[step.writer]).0
              && Owns(s.flights[step.writer].job, facet)
              && s.flights[step.writer].snapshot.Some?
              && s.flights[step.writer].snapshot.value.id == id
              && ValueOf(s.flights[step.writer].snapshot.value, facet) == ValueOf(s.docs[id], facet)
  {
    StepOnDocs(s, step, id);
    if step.Commit? { CommitMovesByOwner(s, step.writer, id, facet); }
  }

  /** Only a commit reaches into the documents that stay. */
  lemma StepOnDocs(s: State, step: Step, id: string)
    requires Possible(s, step)
    ensures step.Commit? ==> Apply(s, step).docs == Land(s.docs, s.flights[step.writer]).1
    ensures !step.Commit? && id in s.docs && id in Apply(s, step).docs ==> Apply(s, step).docs[id] == s.docs[id]
  {
  }

  lemma CommitMovesByOwner(s: State, writer: nat, id: string, facet: Facet)
    requires Sound(s) && writer in s.flights
    requires id in s.docs && id in Land(s.docs, s.flights[writer]).1
    ensures ValueOf(Land(s.docs, s.flights[writer]).1[id], facet) != ValueOf(s.docs[id], facet) ==>
              && Land(s.docs, s.flights[writer]).0
              && Owns(s.flights[writer].job, facet)
              && s.flights[writer].snapshot.Some?
              && s.flights[writer].snapshot.value.id == id
              && ValueOf(s.flights[writer].snapshot.value, facet) == ValueOf(s.docs[id], facet)
  {
    var flight := s.flights[writer];
    if !Land(s.docs, flight).0 {
      QuietLandingKeepsCores(s, writer);
      CoreFixesFacets(Land(s.docs, flight).1[id], s.docs[id], facet);
    } else {
      VersionExtendsLine(s, writer);
      VersionIsNewer(s, writer);
      NewVersionMovesByOwner(s, writer, facet);
    }
  }

  lemma NewVersionMovesByOwner(s: State, writer: nat, facet: Facet)
    requires Sound(s) && writer in s.flights && Land(s.docs, s.flights[writer]).0
    ensures var flight := s.flights[writer];
            var id := Product(flight).id;
            id in s.docs ==>
              && flight.snapshot.Some? && flight.snapshot.value.id == id
              && ValueOf(flight.snapshot.value, facet) == ValueOf(s.docs[id], facet)
              && (ValueOf(Product(flight), facet) != ValueOf(s.docs[id], facet) ==> Owns(flight.job, facet))
  {
    var flight := s.flights[writer];
    assert SnapshotSound(s, flight);
    if flight.snapshot.Some? {
      CommitReplacesWhatWasRead(s, writer);
      PlanMovesOn(flight);
      CoreFixesFacets(flight.snapshot.value, s.docs[flight.snapshot.value.id], facet);
      if !Owns(flight.job, facet) { PlanKeepsTheRest(flight, facet); }
    }
  }

  lemma CoreFixesFacets(a: Server, b: Server, facet: Facet)
    requires Core(a) == Core(b)
    ensures ValueOf(a, facet) == ValueOf(b, facet)
  {
  }

  /** Every plan carries forward what its writer does not own. */
  lemma PlanKeepsTheRest(flight: Flight, facet: Facet)
    requires flight.snapshot.Some? && Fits(flight.job, flight.snapshot.value) && Plans(flight).Replace?
    requires !Owns(flight.job, facet)
    ensures ValueOf(Plans(flight).server, facet) == ValueOf(flight.snapshot.value, facet)
  {
  }

  /** The entry that last decided a part of `id`: its creation, or its last owner's commit. */
  function LastDecision(log: seq<Entry>, id: string, facet: Facet): Option<Entry> {
    if log == [] then None
    else
      var entry := log[|log| - 1];
      if entry.after.id == id && (entry.flight.snapshot.None? || Owns(entry.flight.job, facet)) then Some(entry)
      else LastDecision(log[..|log| - 1], id, facet)
  }

  lemma {:induction false} DecisionStands(log: seq<Entry>, id: string, facet: Facet)
    requires Linear(log) && LastVersion(log, id).Some?
    ensures LastDecision(log, id, facet).Some?
    ensures ValueOf(LastDecision(log, id, facet).value.after, facet) == ValueOf(LastVersion(log, id).value.after, facet)
    decreases |log|
  {
    var n := |log| - 1;
    var entry := log[n];
    if entry.after.id != id {
      DecisionStands(log[..n], id, facet);
    } else if entry.flight.snapshot.Some? && !Owns(entry.flight.job, facet) {
      DecisionStands(log[..n], id, facet);
      CoreFixesFacets(entry.flight.snapshot.value, LastVersion(log[..n], id).value.after, facet);
      PlanKeepsTheRest(entry.flight, facet);
    }
  }

  /** No lost update: however the writers interleave, every part of every stored document is
      what its last owner committed (or what the document was created with). */
  lemma NoUpdateIsLost(steps: seq<Step>, id: string, facet: Facet)
    requires Schedule(steps) && id in After(steps).docs
    ensures var s := After(steps);
            && LastDecision(s.log, id, facet).Some?
            && ValueOf(LastDecision(s.log, id, facet).value.after, facet) == ValueOf(s.docs[id], facet)
  {
    var s := After(steps);
    EveryRunIsSound(steps);
    DecisionStands(s.log, id, facet);
    CoreFixesFacets(LastVersion(s.log, id).value.after, s.docs[id], facet);
  }

  datatype Transition = Transition(before: FacetValue, after: FacetValue, revision: int)

  predicate Audited(facet: Facet) {
    facet.Name? || facet.Type? || facet.Severity? || facet.LifecycleState?
  }

  /** The audit event a commit records for one part: its owner compares what it built with
      what it had read, and says nothing when they agree. */
  function EventOf(entry: Entry, facet: Facet): seq<Transition> {
    if entry.flight.snapshot.Some? && Owns(entry.flight.job, facet)
       && ValueOf(entry.flight.snapshot.value, facet) != ValueOf(entry.after, facet)
    then [Transition(ValueOf(entry.flight.snapshot.value, facet), ValueOf(entry.after, facet), entry.after.revision)]
    else []
  }

  /** One document's events for one part, in the order their commits landed. */
  function Trail(log: seq<Entry>, id: string, facet: Facet): seq<Transition> {
    if log == [] then []
    else
      Trail(log[..|log| - 1], id, facet)
      + (if log[|log| - 1].after.id == id then EventOf(log[|log| - 1], facet) else [])
  }

  function FirstVersion(log: seq<Entry>, id: string): Option<Server> {
    if log == [] then None
    else if log[0].after.id == id then Some(log[0].after)
    else FirstVersion(log[1..], id)
  }

  /** Events that lead from one value to another without a gap, each at a later revision. */
  ghost predicate Chain(events: seq<Transition>, first: FacetValue, last: FacetValue) {
    && (events == [] ==> first == last)
    && (events != [] ==> events[0].before == first && events[|events| - 1].after == last)
    && (forall k | 0 <= k < |events| :: events[k].before != events[k].after)
    && (forall k | 0 < k < |events| ::
          events[k].before == events[k - 1].after && events[k - 1].revision < events[k].revision)
  }

  lemma FirstVersionStays(log: seq<Entry>, id: string)
    requires log != []
    ensures FirstVersion(log[..|log| - 1], id).Some? ==> FirstVersion(log, id) == FirstVersion(log[..|log| - 1], id)
    ensures FirstVersion(log[..|log| - 1], id).None? ==>
              FirstVersion(log, id) == if log[|log| - 1].after.id == id then Some(log[|log| - 1].after) else None
  {
    if |log| > 1 && log[0].after.id != id {
      assert log[1..][..|log| - 2] == log[..|log| - 1][1..];
      FirstVersionStays(log[1..], id);
    }
  }

  /** An event starts from the value of the version before it. */
  lemma EventLinks(entry: Entry, previous: Entry, facet: Facet)
    requires Faithful(entry) && Follows(entry, Some(previous))
    ensures var from, to := ValueOf(previous.after, facet), ValueOf(entry.after, facet);
            EventOf(entry, facet) == if from == to then [] else [Transition(from, to, entry.after.revision)]
  {
    CoreFixesFacets(entry.flight.snapshot.value, previous.after, facet);
    if !Owns(entry.flight.job, facet) { PlanKeepsTheRest(entry.flight, facet); }
  }

  ghost predicate TrailFits(log: seq<Entry>, id: string, facet: Facet) {
    && FirstVersion(log, id).Some? && LastVersion(log, id).Some?
    && var last := LastVersion(log, id).value.after;
    && var events := Trail(log, id, facet);
    && Chain(events, ValueOf(FirstVersion(log, id).value, facet), ValueOf(last, facet))
    && (events != [] ==> events[|events| - 1].revision <= last.revision)
  }

  lemma TrailExtends(log: seq<Entry>, entry: Entry, facet: Facet)
    requires TrailFits(log, entry.after.id, facet)
    requires Faithful(entry) && Follows(entry, LastVersion(log, entry.after.id))
    ensures TrailFits(log + [entry], entry.after.id, facet)
  {
    var id := entry.after.id;
    var longer := log + [entry];
    assert longer[..|log|] == log;
    FirstVersionStays(longer, id);
    AppendedVersion(log, entry, id);
    var previous := LastVersion(log, id).value;
    EventLinks(entry, previous, facet);
    assert Trail(longer, id, facet) == Trail(log, id, facet) + EventOf(entry, facet);
    ChainGrows(Trail(log, id, facet), EventOf(entry, facet), ValueOf(FirstVersion(log, id).value, facet),
               ValueOf(previous.after, facet), ValueOf(entry.after, facet),
               previous.after.revision, entry.after.revision);
  }

  lemma TrailStarts(log: seq<Entry>, entry: Entry, facet: Facet)
    requires LastVersion(log, entry.after.id).None? && Follows(entry, None)
    ensures TrailFits(log + [entry], entry.after.id, facet)
  {
    var longer := log + [entry];
    assert longer[..|log|] == log;
    FirstVersionStays(longer, entry.after.id);
    AppendedVersion(log, entry, entry.after.id);
    NoVersionNoTrail(log, entry.after.id, facet);
    assert Trail(longer, entry.after.id, facet) == [];
  }

  lemma TrailSkips(log: seq<Entry>, entry: Entry, id: string, facet: Facet)
    requires entry.after.id != id && TrailFits(log, id, facet)
    ensures TrailFits(log + [entry], id, facet)
  {
    var longer := log + [entry];
    assert longer[..|log|] == log;
    FirstVersionStays(longer, id);
    AppendedVersion(log, entry, id);
    assert Trail(longer, id, facet) == Trail(log, id, facet);
  }

  lemma {:induction false} TrailIsAChain(log: seq<Entry>, id: string, facet: Facet)
    requires Linear(log) && LastVersion(log, id).Some?
    ensures TrailFits(log, id, facet)
    decreases |log|
  {
    var prefix, entry := log[..|log| - 1], log[|log| - 1];
    assert log == prefix + [entry];
    if entry.after.id != id {
      TrailIsAChain(prefix, id, facet);
      TrailSkips(prefix, entry, id, facet);
    } else if LastVersion(prefix, id).Some? {
      TrailIsAChain(prefix, id, facet);
      TrailExtends(prefix, entry, facet);
    } else {
      TrailStarts(prefix, entry, facet);
    }
  }

  lemma ChainGrows(events: seq<Transition>, more: seq<Transition>, first: FacetValue, middle: FacetValue, last: FacetValue,
                   r0: int, r1: int)
    requires Chain(events, first, middle) && r0 < r1
    requires events != [] ==> events[|events| - 1].revision <= r0
    requires more == if middle == last then [] else [Transition(middle, last, r1)]
    ensures Chain(events + more, first, last)
    ensures events + more != [] ==> (events + more)[|events + more| - 1].revision <= r1
  {
    if middle == last { assert events + more == events; }
  }

  lemma {:induction false} NoVersionNoTrail(log: seq<Entry>, id: string, facet: Facet)
    requires LastVersion(log, id).None?
    ensures Trail(log, id, facet) == [] && FirstVersion(log, id).None?
    decreases |log|
  {
    if log != [] {
      NoVersionNoTrail(log[..|log| - 1], id, facet);
      FirstVersionStays(log, id);
    }
  }

  /** The rename, classification, health and OpenShift-state events of a document lead from
      the value it was created with to the value stored now, each starting where the one
      before it ended, under every interleaving. */
  lemma AuditTrailIsUnbroken(steps: seq<Step>, id: string, facet: Facet)
    requires Schedule(steps) && id in After(steps).docs && Audited(facet)
    ensures var s := After(steps);
            && FirstVersion(s.log, id).Some?
            && Chain(Trail(s.log, id, facet), ValueOf(FirstVersion(s.log, id).value, facet), ValueOf(s.docs[id], facet))
  {
    var s := After(steps);
    EveryRunIsSound(steps);
    TrailIsAChain(s.log, id, facet);
    CoreFixesFacets(LastVersion(s.log, id).value.after, s.docs[id], facet);
  }

  /** A machine keeps its identity: once a document has a serial, no step of any writer
      changes that serial or its vendor. */
  lemma IdentityIsStable(s: State, step: Step, id: string)
    requires Sound(s) && Possible(s, step)
    requires id in s.docs && id in Apply(s, step).docs
    requires s.docs[id].identity.serialNormalized != ""
    ensures var before, after := s.docs[id].identity, Apply(s, step).docs[id].identity;
            after.serialNormalized == before.serialNormalized && after.vendor == before.vendor
  {
    if step.Commit? {
      if Land(s.docs, s.flights[step.writer]).0 {
        VersionExtendsLine(s, step.writer);
        NewVersionKeepsIdentity(s, step.writer);
      } else {
        QuietLandingKeepsCores(s, step.writer);
        CoreFixesIdentity(Apply(s, step).docs[id], s.docs[id]);
      }
    }
  }

  lemma CoreFixesIdentity(a: Server, b: Server)
    requires Core(a) == Core(b)
    ensures a.identity == b.identity
  {
  }

  lemma NewVersionKeepsIdentity(s: State, writer: nat)
    requires Sound(s) && writer in s.flights && Land(s.docs, s.flights[writer]).0
    ensures var after := Product(s.flights[writer]);
            after.id in s.docs && s.docs[after.id].identity.serialNormalized != "" ==>
              && after.identity.serialNormalized == s.docs[after.id].identity.serialNormalized
              && after.identity.vendor == s.docs[after.id].identity.vendor
  {
    var flight := s.flights[writer];
    assert SnapshotSound(s, flight);
    if flight.snapshot.Some? {
      CommitReplacesWhatWasRead(s, writer);
      PlanMovesOn(flight);
      CoreFixesIdentity(flight.snapshot.value, s.docs[flight.snapshot.value.id]);
    }
  }

  lemma {:induction false} IdentityOverRuns(steps: seq<Step>, n: nat, id: string)
    requires Schedule(steps) && n <= |steps| && Schedule(steps[..n])
    requires id in After(steps[..n]).docs && id in After(steps).docs
    requires After(steps[..n]).docs[id].identity.serialNormalized != ""
    ensures var before, after := After(steps[..n]).docs[id].identity, After(steps).docs[id].identity;
            after.serialNormalized == before.serialNormalized && after.vendor == before.vendor
    decreases |steps|
  {
    if n == |steps| {
      assert steps[..n] == steps;
    } else {
      var m := |steps| - 1;
      assert steps[..m][..n] == steps[..n];
      EveryRunIsSound(steps[..m]);
      EveryRunIsSound(steps);
      EveryRunIsSound(steps[..n]);
      if id in After(steps[..m]).docs {
        IdentityOverRuns(steps[..m], n, id);
        IdentityIsStable(After(steps[..m]), steps[m], id);
      } else {
        StaysGoneOneStep(steps, n, m, id);
      }
    }
  }

  /** The history of a document is never forgotten, whether or not the document is still there. */
  lemma {:induction false} VersionPersists(steps: seq<Step>, n: nat, id: string)
    requires Schedule(steps) && n <= |steps| && Schedule(steps[..n])
    requires LastVersion(After(steps[..n]).log, id).Some?
    ensures LastVersion(After(steps).log, id).Some?
    decreases |steps|
  {
    if n == |steps| {
      assert steps[..n] == steps;
    } else {
      var m := |steps| - 1;
      assert steps[..m][..n] == steps[..n];
      VersionPersists(steps[..m], n, id);
      var s := After(steps[..m]);
      if steps[m].Commit? {
        var flight := s.flights[steps[m].writer];
        if Land(s.docs, flight).0 {
          AppendedVersion(s.log, Entry(flight, Product(flight), s.clock), id);
        }
      }
    }
  }

  lemma StaysGoneOneStep(steps: seq<Step>, n: nat, m: nat, id: string)
    requires Schedule(steps) && |steps| == m + 1 && n <= m && Schedule(steps[..n]) && Schedule(steps[..m])
    requires id in After(steps[..n]).docs && id !in After(steps[..m]).docs
    ensures id !in After(steps).docs
  {
    assert steps[..m][..n] == steps[..n];
    EveryRunIsSound(steps[..n]);
    EveryRunIsSound(steps[..m]);
    VersionPersists(steps[..m], n, id);
    var s := After(steps[..m]);
    if steps[m].Commit? {
      assert SnapshotSound(s, s.flights[steps[m].writer]);
      if Land(s.docs, s.flights[steps[m].writer]).0 {
        VersionExtendsLine(s, steps[m].writer);
        if s.flights[steps[m].writer].snapshot.Some? { CommitReplacesWhatWasRead(s, steps[m].writer); }
      } else {
        QuietLandingKeepsCores(s, steps[m].writer);
      }
    }
  }

  /** A document that was there and then is not never comes back: no id is used twice, and a
      writer that had read it cannot insert it. */
  lemma {:induction false} StaysGone(steps: seq<Step>, n: nat, m: nat, id: string)
    requires Schedule(steps) && n <= m <= |steps| && Schedule(steps[..n]) && Schedule(steps[..m])
    requires id in After(steps[..n]).docs && id !in After(steps[..m]).docs
    ensures id !in After(steps).docs
    decreases |steps|
  {
    if m == |steps| {
      assert steps[..m] == steps;
    } else {
      var k := |steps| - 1;
      assert steps[..k][..n] == steps[..n] && steps[..k][..m] == steps[..m];
      StaysGone(steps[..k], n, m, id);
      StaysGoneOneStep(steps, n, k, id);
    }
  }

  /** In no schedule do two documents with a serial agree on both it and the vendor. */
  lemma MachinesStayUnique(steps: seq<Step>, i: string, j: string)
    requires Schedule(steps) && i in After(steps).docs && j in After(steps).docs && i != j
    ensures var a, b := After(steps).docs[i].identity, After(steps).docs[j].identity;
            a.serialNormalized == "" || a.serialNormalized != b.serialNormalized || a.vendor != b.vendor
  {
    EveryRunIsSound(steps);
    assert !SameMachine(After(steps).docs[i], After(steps).docs[j]);
  }
}
