/** Every writer of the collection, interleaved.

    A writer reads a document, builds what it wants to store, and later commits it with a
    compare-and-set (or a conditional touch). Between the two, anything may happen: other
    writers commit, documents are deleted and created, the clock advances. */
module Protocol {
  import opened Documents
  import opened Store
  import opened Operators
  import opened Reservations

  /** What a writer is about to do with the document it read. */
  datatype Job =
    | Ingesting(built: Server, classified: bool, evaluated: bool)
    | Touching(fields: SeenFields)
    | Creating(born: Server)
    | Reserving(request: ReserveRequest)
    | Releasing(holder: Option<string>, workflowId: Option<string>)
    | Enabling(reason: Option<string>, expectedEnd: Option<Instant>, actor: string)
    | Disabling
    | Joining(updated: Lifecycle)
    | Reclassifying(classVerdict: ClassVerdict)
    | Recalculating(healthVerdict: HealthVerdict)

  datatype Flight = Flight(snapshot: Option<Server>, job: Job, decidedAt: Instant)

  datatype Plan =
    | Stop
    | Replace(server: Server, expected: int)
    | Touch(id: string, touchedAt: int, seen: SeenFields)
    | Insert(newborn: Server)

  /** One committed full write. */
  datatype Entry = Entry(flight: Flight, after: Server, at: Instant)

  datatype State = State(
    docs: Collection,
    clock: Instant,
    flights: map<nat, Flight>,
    used: set<string>,
    log: seq<Entry>)

  datatype Step =
    | Tick(to: Instant)
    | Begin(writer: nat, id: string, job: Job)
    | BeginCreate(writer: nat, born: Server)
    | Decide(writer: nat)
    | Commit(writer: nat)
    | Abandon(writer: nat)
    | Delete(id: string)

  const EMPTY := State(map[], 0, map[], {}, [])

  /** What every document an ingest builds from an existing one satisfies, whatever the
      collector reported. */
  predicate IngestKeeps(before: Server, built: Server, classified: bool, evaluated: bool) {
    && built.id == before.id
    && built.revision == before.revision + 1
    && built.createdAt == before.createdAt
    && built.maintenance == before.maintenance
    && built.reservation == before.reservation
    && built.openshift == before.openshift
    && (!classified ==> built.classification == before.classification)
    && (!evaluated ==> built.health == before.health)
    && (before.identity.serialNormalized != "" ==>
          && built.identity.serialNormalized == before.identity.serialNormalized
          && built.identity.vendor == before.identity.vendor)
  }

  predicate Newborn(born: Server) {
    born.revision == 1 && born.maintenance == NO_MAINTENANCE
    && born.reservation == NO_RESERVATION && born.openshift == UNCLAIMED
  }

  predicate Fits(job: Job, snapshot: Server) {
    match job
    case Ingesting(built, classified, evaluated) => IngestKeeps(snapshot, built, classified, evaluated)
    case Creating(_) => false
    case _ => true
  }

  function Plans(flight: Flight): Plan {
    match flight.snapshot
    case None => if flight.job.Creating? then Insert(flight.job.born) else Stop
    case Some(server) =>
      match flight.job
      case Ingesting(built, _, _) => Replace(built, server.revision)
      case Touching(fields) => Touch(server.id, server.revision, fields)
      case Creating(_) => Stop
      case Reserving(request) =>
        if MayReserve(server.reservation, request, flight.decidedAt)
        then Replace(Reserved(server, request, flight.decidedAt), server.revision) else Stop
      case Releasing(holder, workflowId) =>
        if MayRelease(server.reservation, holder, workflowId, flight.decidedAt)
        then Replace(Released(server, flight.decidedAt), server.revision) else Stop
      case Enabling(reason, end, actor) =>
        Replace(Enabled(server, reason, end, actor, flight.decidedAt), server.revision)
      case Disabling => Replace(Disabled(server, flight.decidedAt), server.revision)
      case Joining(updated) =>
        Replace(server.(openshift := updated, revision := server.revision + 1, updatedAt := flight.decidedAt),
                server.revision)
      case Reclassifying(verdict) => Replace(Reclassified(server, verdict, flight.decidedAt), server.revision)
      case Recalculating(verdict) => Replace(Recalculated(server, verdict, flight.decidedAt), server.revision)
  }

  predicate Possible(s: State, step: Step) {
    match step
    case Tick(to) => s.clock <= to
    case Begin(writer, id, job) => writer !in s.flights && id in s.docs && Fits(job, s.docs[id])
    // A new id is a fresh UUID.
    case BeginCreate(writer, born) => writer !in s.flights && born.id !in s.used && Newborn(born)
    // A writer reads its clock at some moment between its read and its commit.
    case Decide(writer) => writer in s.flights
    case Commit(writer) => writer in s.flights
    case Abandon(writer) => writer in s.flights
    case Delete(id) => true
  }

  /** The collection after a plan is carried out, and whether it wrote a new version. */
  function Carry(docs: Collection, plan: Plan): (bool, Collection) {
    match plan
    case Stop => (false, docs)
    case Replace(server, expected) =>
      var (outcome, after) := ReplaceIfRevision(docs, server, expected);
      (outcome == Written, after)
    case Touch(id, expected, fields) => (false, TouchIfRevision(docs, id, expected, fields).1)
    case Insert(born) =>
      var (outcome, after) := ReplaceOrInsert(docs, born);
      (outcome == Written, after)
  }

  function Land(docs: Collection, flight: Flight): (bool, Collection) {
    Carry(docs, Plans(flight))
  }

  function Product(flight: Flight): Server
    requires Plans(flight).Replace? || Plans(flight).Insert?
  {
    if Plans(flight).Replace? then Plans(flight).server else Plans(flight).newborn
  }

  function Apply(s: State, step: Step): State
    requires Possible(s, step)
  {
    match step
    case Tick(to) => s.(clock := to)
    case Begin(writer, id, job) => s.(flights := s.flights[writer := Flight(Some(s.docs[id]), job, s.clock)])
    case BeginCreate(writer, born) =>
      s.(flights := s.flights[writer := Flight(None, Creating(born), s.clock)], used := s.used + {born.id})
    case Decide(writer) =>
      s.(flights := s.flights[writer := s.flights[writer].(decidedAt := s.clock)])
    case Commit(writer) =>
      var flight := s.flights[writer];
      var (wrote, docs) := Land(s.docs, flight);
      s.(docs := docs, flights := s.flights - {writer},
         log := if wrote then s.log + [Entry(flight, Product(flight), s.clock)] else s.log)
    case Abandon(writer) => s.(flights := s.flights - {writer})
    case Delete(id) => s.(docs := s.docs - {id})
  }

  /** A schedule that can actually happen, and where it leads. */
  ghost predicate Schedule(steps: seq<Step>)
    decreases |steps|, 0
  {
    steps == [] ||
    (Schedule(steps[..|steps| - 1]) && Possible(After(steps[..|steps| - 1]), steps[|steps| - 1]))
  }

  ghost function After(steps: seq<Step>): State
    requires Schedule(steps)
    decreases |steps|, 1
  {
    if steps == [] then EMPTY else Apply(After(steps[..|steps| - 1]), steps[|steps| - 1])
  }

  /** The last version committed for `id` among the first entries of the log. */
  function LastVersion(log: seq<Entry>, id: string): Option<Entry> {
    if log == [] then None
    else if log[|log| - 1].after.id == id then Some(log[|log| - 1])
    else LastVersion(log[..|log| - 1], id)
  }

  /** An entry is what its writer's plan says, built from the version before it. */
  predicate Faithful(entry: Entry) {
    && (Plans(entry.flight).Replace? || Plans(entry.flight).Insert?)
    && entry.after == Product(entry.flight)
    && entry.flight.decidedAt <= entry.at
    && (entry.flight.snapshot.Some? ==>
          && Fits(entry.flight.job, entry.flight.snapshot.value)
          && entry.after.id == entry.flight.snapshot.value.id)
    && (entry.flight.snapshot.None? ==> Newborn(entry.after))
  }

  /** The version an entry replaced is the one its writer had read, up to the touch stamps. */
  predicate Follows(entry: Entry, previous: Option<Entry>) {
    match previous
    case None => entry.flight.snapshot.None?
    case Some(p) =>
      && entry.flight.snapshot.Some?
      && Core(entry.flight.snapshot.value) == Core(p.after)
      && entry.after.revision == p.after.revision + 1
  }

  predicate Linear(log: seq<Entry>)
    decreases |log|
  {
    log == [] ||
    var n := |log| - 1;
    && Linear(log[..n])
    && Faithful(log[n])
    && Follows(log[n], LastVersion(log[..n], log[n].after.id))
    && (n > 0 ==> log[n - 1].at <= log[n].at)
  }

  ghost predicate DocsInLog(s: State) {
    forall id | id in s.docs ::
      && s.docs[id].id == id
      && LastVersion(s.log, id).Some?
      && Core(LastVersion(s.log, id).value.after) == Core(s.docs[id])
  }

  ghost predicate LogInPast(s: State) {
    && (forall k | 0 <= k < |s.log| :: s.log[k].at <= s.clock && s.log[k].after.id in s.used)
  }

  /** A snapshot is never newer than the stored document, and at the same revision the two
      differ at most in the touch stamps. */
  ghost predicate SnapshotSound(s: State, flight: Flight) {
    && flight.decidedAt <= s.clock
    && (flight.snapshot.Some? ==>
          var read := flight.snapshot.value;
          && read.id in s.used
          && LastVersion(s.log, read.id).Some?
          && Fits(flight.job, read)
          && (read.id in s.docs ==>
                && read.revision <= s.docs[read.id].revision
                && (read.revision == s.docs[read.id].revision ==> Core(read) == Core(s.docs[read.id]))))
    && (flight.snapshot.None? ==>
          && flight.job.Creating?
          && Newborn(flight.job.born)
          && flight.job.born.id in s.used
          && flight.job.born.id !in s.docs
          && LastVersion(s.log, flight.job.born.id).None?)
  }

  ghost predicate BirthsDistinct(s: State) {
    forall v, w | v in s.flights && w in s.flights && v != w
                  && s.flights[v].job.Creating? && s.flights[w].job.Creating? ::
      s.flights[v].job.born.id != s.flights[w].job.born.id
  }

  ghost predicate Sound(s: State) {
    && UniqueMachines(s.docs)
    && s.docs.Keys <= s.used
    && DocsInLog(s)
    && LogInPast(s)
    && Linear(s.log)
    && (forall w | w in s.flights :: SnapshotSound(s, s.flights[w]))
    && BirthsDistinct(s)
  }

  lemma VersionIsOfItsId(log: seq<Entry>, id: string)
    ensures LastVersion(log, id).Some? ==>
              LastVersion(log, id).value in log && LastVersion(log, id).value.after.id == id
  {
  }

  lemma NoVersionOfUnusedId(s: State, id: string)
    requires LogInPast(s) && id !in s.used
    ensures LastVersion(s.log, id).None?
  {
    VersionIsOfItsId(s.log, id);
  }

  lemma AppendedVersion(log: seq<Entry>, entry: Entry, id: string)
    ensures LastVersion(log + [entry], id) == if entry.after.id == id then Some(entry) else LastVersion(log, id)
  {
    assert (log + [entry])[..|log|] == log;
  }

  /** A plan names the document its writer read and moves its revision on by one. */
  lemma PlanMovesOn(flight: Flight)
    requires flight.snapshot.Some? && Fits(flight.job, flight.snapshot.value) && Plans(flight).Replace?
    ensures Plans(flight).server.id == flight.snapshot.value.id
    ensures Plans(flight).server.revision == flight.snapshot.value.revision + 1
    ensures Plans(flight).expected == flight.snapshot.value.revision
  {
  }

  /** Whether a commit's compare-and-set goes through, it replaces exactly the version its
      writer read, up to the touch stamps. */
  lemma CommitReplacesWhatWasRead(s: State, writer: nat)
    requires Sound(s) && writer in s.flights
    requires Land(s.docs, s.flights[writer]).0 && s.flights[writer].snapshot.Some?
    ensures var read := s.flights[writer].snapshot.value;
            && Plans(s.flights[writer]).Replace?
            && read.id in s.docs
            && Core(read) == Core(s.docs[read.id])
            && Land(s.docs, s.flights[writer]).1 == s.docs[read.id := Plans(s.flights[writer]).server]
  {
    var flight := s.flights[writer];
    assert SnapshotSound(s, flight);
    PlanMovesOn(flight);
  }

  /** Landing keeps the collection keyed and free of duplicate machines. */
  lemma LandingKeepsKeys(s: State, writer: nat)
    requires Sound(s) && writer in s.flights
    ensures var docs := Land(s.docs, s.flights[writer]).1;
            Keyed(docs) && UniqueMachines(docs) && docs.Keys <= s.used
  {
    var flight := s.flights[writer];
    assert SnapshotSound(s, flight);
    if Plans(flight).Replace? { PlanMovesOn(flight); }
    CarryKeepsKeys(s.docs, Plans(flight));
  }

  lemma CarryKeepsKeys(docs: Collection, plan: Plan)
    requires Keyed(docs) && UniqueMachines(docs)
    requires plan.Insert? ==> plan.newborn.id !in docs
    ensures var after := Carry(docs, plan).1;
            && Keyed(after) && UniqueMachines(after)
            && after.Keys <= docs.Keys + (if plan.Insert? then {plan.newborn.id} else {})
  {
    match plan
    case Stop =>
    case Replace(server, expected) => ReplaceIsExact(docs, server, expected);
    case Touch(id, expected, fields) => TouchIsExact(docs, id, expected, fields);
    case Insert(born) => InsertIsExact(docs, born);
  }

  /** Carrying out a plan without a new version moves no document's core. */
  lemma QuietCarryKeepsCores(docs: Collection, plan: Plan)
    requires Keyed(docs) && UniqueMachines(docs) && !Carry(docs, plan).0
    ensures var after := Carry(docs, plan).1;
            && after.Keys == docs.Keys
            && (forall id | id in after ::
                  after[id].revision == docs[id].revision && after[id].id == docs[id].id
                  && Core(after[id]) == Core(docs[id]))
  {
    match plan
    case Touch(id, expected, fields) => TouchIsExact(docs, id, expected, fields);
    case _ => assert Carry(docs, plan).1 == docs;
  }

  /** Landing without a new version moves no document's core. */
  lemma QuietLandingKeepsCores(s: State, writer: nat)
    requires Sound(s) && writer in s.flights && !Land(s.docs, s.flights[writer]).0
    ensures var docs := Land(s.docs, s.flights[writer]).1;
            && docs.Keys == s.docs.Keys
            && (forall id | id in docs ::
                  docs[id].revision == s.docs[id].revision && docs[id].id == s.docs[id].id
                  && Core(docs[id]) == Core(s.docs[id]))
  {
    QuietCarryKeepsCores(s.docs, Plans(s.flights[writer]));
  }

  lemma QuietCommitIsSound(s: State, writer: nat)
    requires Sound(s) && Possible(s, Commit(writer)) && !Land(s.docs, s.flights[writer]).0
    ensures Sound(Apply(s, Commit(writer)))
  {
    var t := Apply(s, Commit(writer));
    LandingKeepsKeys(s, writer);
    QuietLandingKeepsCores(s, writer);
    forall w | w in t.flights ensures SnapshotSound(t, t.flights[w]) {
      assert SnapshotSound(s, s.flights[w]);
    }
  }

  /** A new version extends the line of versions of its document. */
  lemma VersionExtendsLine(s: State, writer: nat)
    requires Sound(s) && writer in s.flights && Land(s.docs, s.flights[writer]).0
    ensures var entry := Entry(s.flights[writer], Product(s.flights[writer]), s.clock);
            && Faithful(entry)
            && Follows(entry, LastVersion(s.log, entry.after.id))
            && Linear(s.log + [entry])
            && entry.after.id in s.used
            && Land(s.docs, s.flights[writer]).1 == s.docs[entry.after.id := entry.after]
  {
    var flight := s.flights[writer];
    assert SnapshotSound(s, flight);
    var entry := Entry(flight, Product(flight), s.clock);
    assert (s.log + [entry])[..|s.log|] == s.log;
    if flight.snapshot.Some? {
      CommitReplacesWhatWasRead(s, writer);
      PlanMovesOn(flight);
      var id := flight.snapshot.value.id;
      VersionIsOfItsId(s.log, id);
      CoreKeepsRevision(LastVersion(s.log, id).value.after, s.docs[id]);
      CoreKeepsRevision(flight.snapshot.value, s.docs[id]);
    }
  }

  lemma CoreKeepsRevision(a: Server, b: Server)
    requires Core(a) == Core(b)
    ensures a.revision == b.revision && a.id == b.id
  {
  }

  /** A read in flight survives another writer's new version: it is now older than the
      stored document, or of another one. */
  lemma ReadSurvives(s: State, t: State, entry: Entry, flight: Flight)
    requires SnapshotSound(s, flight)
    requires t.docs == s.docs[entry.after.id := entry.after] && t.log == s.log + [entry]
    requires t.used == s.used && t.clock == s.clock
    requires entry.after.id in s.docs ==> s.docs[entry.after.id].revision < entry.after.revision
    requires entry.after.id !in s.docs ==> LastVersion(s.log, entry.after.id).None?
    requires flight.job.Creating? ==> flight.job.born.id != entry.after.id
    ensures SnapshotSound(t, flight)
  {
    if flight.snapshot.Some? {
      var read := flight.snapshot.value;
      AppendedVersion(s.log, entry, read.id);
    } else {
      AppendedVersion(s.log, entry, flight.job.born.id);
    }
  }

  lemma DocsStayInLog(s: State, t: State, entry: Entry)
    requires DocsInLog(s) && LogInPast(s)
    requires t.docs == s.docs[entry.after.id := entry.after] && t.log == s.log + [entry]
    requires t.used == s.used && t.clock == s.clock == entry.at && entry.after.id in s.used
    ensures DocsInLog(t) && LogInPast(t)
  {
    forall id | id in t.docs
      ensures && t.docs[id].id == id
              && LastVersion(t.log, id).Some?
              && Core(LastVersion(t.log, id).value.after) == Core(t.docs[id])
    {
      AppendedVersion(s.log, entry, id);
    }
  }

  /** No other flight is about to create the document a commit writes. */
  lemma BirthsDiffer(s: State, writer: nat, w: nat)
    requires Sound(s) && writer in s.flights && w in s.flights && w != writer
    requires Land(s.docs, s.flights[writer]).0 && s.flights[w].job.Creating?
    ensures s.flights[w].job.born.id != Product(s.flights[writer]).id
  {
    assert SnapshotSound(s, s.flights[w]) && SnapshotSound(s, s.flights[writer]);
    if s.flights[writer].snapshot.Some? {
      CommitReplacesWhatWasRead(s, writer);
      PlanMovesOn(s.flights[writer]);
      assert !Fits(s.flights[w].job, s.flights[writer].snapshot.value);
    }
  }

  lemma VersionIsNewer(s: State, writer: nat)
    requires Sound(s) && writer in s.flights && Land(s.docs, s.flights[writer]).0
    ensures var after := Product(s.flights[writer]);
            && (after.id in s.docs ==> s.docs[after.id].revision < after.revision)
            && (after.id !in s.docs ==> LastVersion(s.log, after.id).None?)
  {
    var flight := s.flights[writer];
    assert SnapshotSound(s, flight);
    if flight.snapshot.Some? {
      CommitReplacesWhatWasRead(s, writer);
      PlanMovesOn(flight);
      CoreKeepsRevision(flight.snapshot.value, s.docs[flight.snapshot.value.id]);
    }
  }

  lemma NewVersionIsSound(s: State, writer: nat, t: State)
    requires Sound(s) && writer in s.flights && Land(s.docs, s.flights[writer]).0
    requires var flight := s.flights[writer];
             && t.docs == Land(s.docs, flight).1
             && t.log == s.log + [Entry(flight, Product(flight), s.clock)]
             && t.flights == s.flights - {writer} && t.used == s.used && t.clock == s.clock
    ensures Sound(t)
  {
    var entry := Entry(s.flights[writer], Product(s.flights[writer]), s.clock);
    LandingKeepsKeys(s, writer);
    VersionExtendsLine(s, writer);
    DocsStayInLog(s, t, entry);
    VersionIsNewer(s, writer);
    forall w | w in t.flights ensures SnapshotSound(t, t.flights[w]) {
      if s.flights[w].job.Creating? { BirthsDiffer(s, writer, w); }
      ReadSurvives(s, t, entry, s.flights[w]);
    }
  }

  /** A read in flight stays sound while the documents and the log stand still. */
  lemma ReadWaits(s: State, t: State, flight: Flight, later: Flight)
    requires SnapshotSound(s, flight)
    requires t.docs == s.docs && t.log == s.log && s.used <= t.used && s.clock <= t.clock
    requires later == flight.(decidedAt := later.decidedAt) && later.decidedAt <= t.clock
    ensures SnapshotSound(t, later)
  {
  }

  lemma BirthIsSound(s: State, writer: nat, born: Server)
    requires Sound(s) && Possible(s, BeginCreate(writer, born))
    ensures Sound(Apply(s, BeginCreate(writer, born)))
  {
    var t := Apply(s, BeginCreate(writer, born));
    NoVersionOfUnusedId(s, born.id);
    forall w | w in t.flights ensures SnapshotSound(t, t.flights[w]) {
      if w != writer { ReadWaits(s, t, s.flights[w], s.flights[w]); }
    }
    forall w | w in s.flights && s.flights[w].job.Creating? ensures s.flights[w].job.born.id in s.used {
      assert SnapshotSound(s, s.flights[w]);
    }
  }

  lemma ReadIsSound(s: State, writer: nat, id: string, job: Job)
    requires Sound(s) && Possible(s, Begin(writer, id, job))
    ensures Sound(Apply(s, Begin(writer, id, job)))
  {
    var t := Apply(s, Begin(writer, id, job));
    forall w | w in t.flights ensures SnapshotSound(t, t.flights[w]) {
      if w != writer { ReadWaits(s, t, s.flights[w], s.flights[w]); }
    }
  }

  lemma WaitIsSound(s: State, t: State)
    requires Sound(s)
    requires t.docs == s.docs && t.log == s.log && t.used == s.used && s.clock <= t.clock
    requires t.flights.Keys <= s.flights.Keys
    requires forall w | w in t.flights ::
               && t.flights[w] == s.flights[w].(decidedAt := t.flights[w].decidedAt)
               && t.flights[w].decidedAt <= t.clock
    ensures Sound(t)
  {
    forall w | w in t.flights ensures SnapshotSound(t, t.flights[w]) {
      ReadWaits(s, t, s.flights[w], t.flights[w]);
    }
    forall v, w | v in t.flights && w in t.flights && v != w && t.flights[v].job.Creating? && t.flights[w].job.Creating?
      ensures t.flights[v].job.born.id != t.flights[w].job.born.id
    {
      assert t.flights[v].job == s.flights[v].job && t.flights[w].job == s.flights[w].job;
    }
  }

  lemma DeletionIsSound(s: State, id: string)
    requires Sound(s)
    ensures Sound(Apply(s, Delete(id)))
  {
    var t := Apply(s, Delete(id));
    forall w | w in t.flights ensures SnapshotSound(t, t.flights[w]) {
      assert SnapshotSound(s, s.flights[w]);
    }
  }

  /** Every step of every writer keeps the collection, the log and all reads in flight sound. */
  lemma StepIsSound(s: State, step: Step)
    requires Sound(s) && Possible(s, step)
    ensures Sound(Apply(s, step))
  {
    match step
    case Commit(writer) =>
      if Land(s.docs, s.flights[writer]).0 {
        NewVersionIsSound(s, writer, Apply(s, step));
      } else {
        QuietCommitIsSound(s, writer);
      }
    case BeginCreate(writer, born) =>
      BirthIsSound(s, writer, born);
    case Begin(writer, id, job) =>
      ReadIsSound(s, writer, id, job);
    case Delete(id) =>
      DeletionIsSound(s, id);
    case _ =>
      forall w | w in s.flights ensures s.flights[w].decidedAt <= s.clock {
        assert SnapshotSound(s, s.flights[w]);
      }
      WaitIsSound(s, Apply(s, step));
  }

  /** Nothing keeps writers apart: in any state the clock may advance, any document may be read by
      a new writer for any job that fits it, any writer under way may decide, commit or give up, and
      any document may be deleted. */
  lemma WritersAreFree(s: State, to: Instant, writer: nat, id: string, job: Job, other: nat)
    ensures to >= s.clock ==> Possible(s, Tick(to)) && Apply(s, Tick(to)) == s.(clock := to)
    ensures writer !in s.flights && id in s.docs && Fits(job, s.docs[id]) ==>
              && Possible(s, Begin(writer, id, job))
              && Apply(s, Begin(writer, id, job)) == s.(flights := s.flights[writer := Flight(Some(s.docs[id]), job, s.clock)])
    ensures other in s.flights ==>
              && Possible(s, Decide(other)) && Possible(s, Commit(other)) && Possible(s, Abandon(other))
              && Apply(s, Decide(other)).flights[other].decidedAt == s.clock
              && Apply(s, Commit(other)).docs == Land(s.docs, s.flights[other]).1
              && Apply(s, Abandon(other)).docs == s.docs
    ensures Possible(s, Delete(id)) && Apply(s, Delete(id)).docs == s.docs - {id}
  {
  }

  /** Safety over whole runs: any schedule of any number of writers stays sound. */
  lemma {:induction false} EveryRunIsSound(steps: seq<Step>)
    requires Schedule(steps)
    ensures Sound(After(steps))
    decreases |steps|
  {
    if steps != [] {
      EveryRunIsSound(steps[..|steps| - 1]);
      StepIsSound(After(steps[..|steps| - 1]), steps[|steps| - 1]);
    }
  }
}
