/** Ingesting one provider record: correlate, build, write conditionally, and start over when
    the document moved, a bounded number of times. */
module IngestLoop {
  import opened Documents
  import opened Store
  import opened Protocol
  import opened IngestBuild
  import opened IngestSkip
  import opened Retry

  /** Whether a stored document carries every field of the current model. */
  datatype Vintage = Complete | Older(lacksBmcSite: bool)

  datatype IngestOutcome = Created | Updated | Unchanged

  datatype Result =
    | Ingested(server: Server, outcome: IngestOutcome)
    | Unsupported
    | Duplicate
    | KeptChanging

  /** One record to ingest, as its collector reports it. `vendor` is absent for a name the
      model does not know. */
  datatype Task = Task(record: Record, vendor: Option<Vendor>, providerType: ManagerType, engines: Engines)

  /** What a call finds around it: what the other writers commit in each of their turns, the
      clock and a new id for each attempt, how the store lists its documents, and how old each is. */
  datatype World = World(
    others: Others,
    now: nat -> Instant,
    freshId: nat -> string,
    natural: Collection -> seq<string>,
    byId: Collection -> seq<string>,
    vintage: Server -> Vintage)

  predicate IsMachine(server: Server, vendor: Vendor, serial: string) {
    server.identity.vendor == vendor && server.identity.serialNormalized == serial
  }

  predicate IsBmcStub(server: Server, host: string) {
    server.sourceProvider == Some(RedfishStandalone) && server.network.bmcHost == Some(host)
  }

  predicate IsNameStub(server: Server, record: Record) {
    && server.sourceProvider == Some(OpenManage)
    && server.managerId == record.managerId
    && server.nameNormalized == NormalizeText(record.name)
    && server.identity.serialNormalized == ""
  }

  /** The first listed document with a property. */
  function FirstWhere(docs: Collection, order: seq<string>, holds: Server -> bool): (found: Option<string>)
    ensures found.Some? ==> found.value in docs && holds(docs[found.value])
  {
    if order == [] then None
    else if order[0] in docs && holds(docs[order[0]]) then Some(order[0])
    else FirstWhere(docs, order[1..], holds)
  }

  /** Matching by BMC host: without a serial any document of that host will do, a whole machine
      rather than a stub; with one, only a stub may be taken over. */
  function ByBmcHost(docs: Collection, order: seq<string>, engines: Engines, record: Record): Option<string> {
    var bmc := engines.parseBmc(record.bmcAddressRaw);
    if !bmc.parsed || !Truthy(bmc.host) then None
    else
      var stub := FirstWhere(docs, order, (s: Server) => IsBmcStub(s, bmc.host.value) && s.identity.serialNormalized == "");
      if NormalizeSerial(record) != "" then stub
      else
        var whole := FirstWhere(docs, order, (s: Server) => IsBmcStub(s, bmc.host.value) && s.identity.serialNormalized != "");
        if whole.Some? then whole else stub
  }

  function ByVendorSerial(docs: Collection, order: seq<string>, vendor: Vendor, serial: string): Option<string> {
    FirstWhere(docs, order, (s: Server) => IsMachine(s, vendor, serial))
  }

  function DocumentAt(docs: Collection, id: Option<string>): Option<Server> {
    if id.Some? && id.value in docs then Some(docs[id.value]) else None
  }

  /** The stored document of the machine a record's serial names. */
  function FindMachine(docs: Collection, world: World, task: Task, vendor: Vendor): Option<Server> {
    var serial := NormalizeSerial(task.record);
    if serial == "" then None else DocumentAt(docs, ByVendorSerial(docs, world.natural(docs), vendor, serial))
  }

  /** The stored document a record is matched to without its serial. */
  function FindStub(docs: Collection, world: World, task: Task): Option<Server> {
    if task.providerType == RedfishStandalone
    then DocumentAt(docs, ByBmcHost(docs, world.natural(docs), task.engines, task.record))
    else if task.providerType == OpenManage
    then DocumentAt(docs, FirstWhere(docs, world.byId(docs), (s: Server) => IsNameStub(s, task.record)))
    else None
  }

  /** The stored document a record updates, if any: looked up by serial first, and if that finds
      nothing, later, by BMC host or by name. */
  function Correlate(first: Collection, second: Collection, world: World, task: Task, vendor: Vendor): Option<Server> {
    var machine := FindMachine(first, world, task, vendor);
    if machine.Some? then machine else FindStub(second, world, task)
  }

  function RunOf(task: Task, vendor: Vendor, existing: Option<Server>, world: World, attempt: nat): Run {
    Run(task.record,
        if existing.Some? && NormalizeSerial(task.record) == "" then existing.value.identity.vendor else vendor,
        task.providerType, task.engines, world.now(attempt),
        existing.Some? && world.vintage(existing.value) == Older(true))
  }

  predicate IsUnchanged(existing: Option<Server>, built: Server, world: World) {
    existing.Some? && world.vintage(existing.value).Complete? && StableView(built) == StableView(existing.value)
  }

  datatype Attempt = Attempt(existing: Option<Server>, run: Run, built: Server, idle: bool)

  /** What an attempt whose lookups see these collections is going to write. */
  function Prepare(first: Collection, second: Collection, world: World, task: Task, vendor: Vendor, attempt: nat): Attempt {
    var existing := Correlate(first, second, world, task, vendor);
    var run := RunOf(task, vendor, existing, world, attempt);
    var built := Build(run, existing, world.freshId(attempt));
    Attempt(existing, run, built, IsUnchanged(existing, built, world))
  }

  function FieldsOf(a: Attempt): SeenFields {
    SeenFieldsOf(a.built, a.run.engines.evaluate.Some?, a.run.engines.classify.Some?)
  }

  /** The write of an attempt, against the collection as the other writers left it. */
  function Write(current: Collection, a: Attempt): (WriteOutcome, Collection) {
    match a.existing
    case None => ReplaceOrInsert(current, a.built)
    case Some(existing) =>
      if a.idle then
        var (touched, after) := TouchIfRevision(current, existing.id, existing.revision, FieldsOf(a));
        (if touched then Written else RevisionConflict, after)
      else ReplaceIfRevision(current, a.built, existing.revision)
  }

  function Returned(a: Attempt): Result {
    if a.existing.None? then Ingested(a.built, Created)
    else if a.idle then Ingested(AsStored(a.built, a.existing.value), Unchanged)
    else Ingested(a.built, Updated)
  }

  function Announced(a: Attempt): seq<Transition> {
    if a.idle then [] else Transitions(a.existing, a.built, a.run.engines.evaluate.Some?)
  }

  function Preparing(world: World, task: Task, vendor: Vendor): (Collection, Collection, nat) -> Attempt {
    (first, second, k: nat) => Prepare(first, second, world, task, vendor, k)
  }

  function Answer(ended: Ended<Attempt>): Result {
    AnswerOf(ended.outcome, ended.last)
  }

  function AnswerOf(outcome: WriteOutcome, a: Attempt): Result {
    match outcome
    case Written => Returned(a)
    case DuplicateKey => Duplicate
    case _ => KeptChanging
  }

  /** A correlated document may be written over by the record it was found for. */
  lemma CorrelationIsSafe(first: Collection, second: Collection, world: World, task: Task, vendor: Vendor, attempt: nat)
    ensures var a := Prepare(first, second, world, task, vendor, attempt);
            a.existing.Some? ==> Correlated(a.run, a.existing.value)
  {
  }

  /** A record with a serial reaches only its own machine's document or one without a serial. */
  lemma SerialReachesItsMachine(first: Collection, second: Collection, world: World, task: Task, vendor: Vendor)
    requires Keyed(first) && Keyed(second)
    ensures var found := Correlate(first, second, world, task, vendor);
            found.Some? ==>
              && ((found.value.id in first && first[found.value.id] == found.value)
                  || (found.value.id in second && second[found.value.id] == found.value))
              && (NormalizeSerial(task.record) != "" ==>
                    IsMachine(found.value, vendor, NormalizeSerial(task.record))
                    || found.value.identity.serialNormalized == "")
  {
  }

  /** What an attempt hands to the protocol is a job that fits the document it read. */
  lemma AttemptFits(first: Collection, second: Collection, world: World, task: Task, vendor: Vendor, attempt: nat)
    ensures var a := Prepare(first, second, world, task, vendor, attempt);
            match a.existing
            case None => Newborn(a.built) && a.built.id == world.freshId(attempt)
            case Some(existing) =>
              Fits(Ingesting(a.built, task.engines.classify.Some?, task.engines.evaluate.Some?), existing)
  {
    var a := Prepare(first, second, world, task, vendor, attempt);
    CorrelationIsSafe(first, second, world, task, vendor, attempt);
    match a.existing
    case None => BuildIsNewborn(a.run, world.freshId(attempt));
    case Some(existing) => BuildKeeps(a.run, existing, world.freshId(attempt));
  }

  /** Two readings of the collection agree, up to the touch stamps, on every document that is
      still at the revision it was read at: what the protocol keeps for every read in flight. */
  ghost predicate Agrees(read: Collection, current: Collection) {
    forall id | id in read && id in current && read[id].revision == current[id].revision ::
      Core(read[id]) == Core(current[id])
  }

  /** An attempt is made of a document it read or of an id nobody has. */
  predicate Aimed(a: Attempt, current: Collection) {
    match a.existing
    case None => a.built.id !in current
    case Some(existing) => a.built.id == existing.id
  }

  lemma AttemptIsAimed(first: Collection, second: Collection, current: Collection, world: World, task: Task, vendor: Vendor,
                       attempt: nat)
    requires world.freshId(attempt) !in current
    ensures Aimed(Prepare(first, second, world, task, vendor, attempt), current)
  {
    AttemptFits(first, second, world, task, vendor, attempt);
  }

  /** An attempt changes one document, the one it read or a new one, or none. */
  lemma WriteIsExact(current: Collection, a: Attempt)
    requires Keyed(current) && UniqueMachines(current) && Aimed(a, current)
    ensures var (outcome, after) := Write(current, a);
            && (outcome != Written ==> after == current)
            && (outcome == Written ==> a.built.id in after && after == current[a.built.id := after[a.built.id]])
            && (a.existing.Some? ==> after.Keys == current.Keys)
            && (a.existing.Some? && outcome == Written ==>
                  a.built.id in current && current[a.built.id].revision == a.existing.value.revision)
            && (a.existing.None? && outcome == Written ==> after[a.built.id] == a.built)
            && Keyed(after) && UniqueMachines(after)
  {
    match a.existing
    case None => InsertIsExact(current, a.built);
    case Some(existing) =>
      if a.idle {
        TouchIsExact(current, existing.id, existing.revision, FieldsOf(a));
      } else {
        ReplaceIsExact(current, a.built, existing.revision);
      }
  }

  /** A write over a document read at the same revision is over the machine that was read. */
  lemma WriteReachesWhatWasRead(read: Collection, current: Collection, a: Attempt, id: string)
    requires Keyed(current) && UniqueMachines(current) && Agrees(read, current) && Aimed(a, current)
    requires a.existing.Some? ==> a.existing.value.id in read && read[a.existing.value.id] == a.existing.value
    requires id in current
    ensures var after := Write(current, a).1;
            && id in after
            && (after[id] != current[id] ==>
                  a.existing.Some? && a.existing.value.id == id && current[id].identity == a.existing.value.identity)
  {
    WriteIsExact(current, a);
    var after := Write(current, a).1;
    if after[id] != current[id] && a.existing.Some? {
      CoreKeepsIdentity(read[id], current[id]);
    }
  }

  lemma CoreKeepsIdentity(a: Server, b: Server)
    requires Core(a) == Core(b)
    ensures a.identity == b.identity
  {
  }

  /** No record with a serial is ever written over the document of another machine, whatever
      the other writers did since the lookups. */
  lemma NoOtherMachineIsOverwritten(first: Collection, second: Collection, current: Collection, world: World, task: Task,
                                    vendor: Vendor, attempt: nat, id: string)
    requires Keyed(first) && Keyed(second) && Keyed(current) && UniqueMachines(current)
    requires Agrees(first, current) && Agrees(second, current)
    requires world.freshId(attempt) !in current && NormalizeSerial(task.record) != ""
    requires id in current
    ensures var after := Write(current, Prepare(first, second, world, task, vendor, attempt)).1;
            && id in after
            && (after[id] != current[id] ==>
                  IsMachine(current[id], vendor, NormalizeSerial(task.record))
                  || current[id].identity.serialNormalized == "")
  {
    var a := Prepare(first, second, world, task, vendor, attempt);
    AttemptIsAimed(first, second, current, world, task, vendor, attempt);
    SerialReachesItsMachine(first, second, world, task, vendor);
    if a.existing.Some? && a.existing.value.id in first && first[a.existing.value.id] == a.existing.value {
      WriteReachesWhatWasRead(first, current, a, id);
    } else {
      WriteReachesWhatWasRead(second, current, a, id);
    }
  }

  lemma WriteIsAllOrNothing()
    ensures AllOrNothing(Write)
  {
    forall current, a ensures Write(current, a).0 != Written ==> Write(current, a).1 == current {
      FailedWriteChangesNothing(current, a);
    }
  }

  /** What one call leaves, whatever the other writers do between its lookups, before its write
      and before it looks again. */
  lemma IngestChangesOnce(docs: Collection, others: Others, prepare: (Collection, Collection, nat) -> Attempt)
    ensures var ended := Attempts(docs, others, prepare, Write, 0);
            && 1 <= ended.tries <= MAX_WRITE_ATTEMPTS
            && var first := TURNS * (ended.tries - 1);
               var current := Disturbed(docs, others, 0, first + 2);
               && (!Answer(ended).Ingested? ==> ended.tries == MAX_WRITE_ATTEMPTS && ended.docs == current)
               && (Answer(ended).Ingested? ==>
                     && ended.last == prepare(Disturbed(docs, others, 0, first), Disturbed(docs, others, 0, first + 1),
                                              ended.tries - 1)
                     && Write(current, ended.last) == (Written, ended.docs))
  {
    WriteIsAllOrNothing();
    OneChangeAtMost(docs, others, prepare, Write, 0);
  }

  /** A call survives losing a race to an insert that is then undone: the second attempt finds
      what was left in the meantime, not what the first one collided with. */
  lemma NextAttemptLooksAgain(docs: Collection, others: Others, prepare: (Collection, Collection, nat) -> Attempt)
    requires var second := others(0)(docs);
             Write(others(1)(second), prepare(docs, second, 0)).0 != Written
    ensures var current := others(1)(others(0)(docs));
            Attempts(docs, others, prepare, Write, 0) == Attempts(others(2)(current), others, prepare, Write, 1)
  {
    var second := others(0)(docs);
    FailedWriteChangesNothing(others(1)(second), prepare(docs, second, 0));
  }

  lemma FailedWriteChangesNothing(current: Collection, a: Attempt)
    ensures Write(current, a).0 != Written ==> Write(current, a).1 == current
  {
  }
}
