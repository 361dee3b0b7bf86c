/** What a call to ingest one record achieves: which document it finds, when it only refreshes
    stamps, and what is stored and announced when it returns. */
module IngestOutcome {
  import opened Documents
  import opened Store
  import opened IngestBuild
  import opened IngestSkip
  import opened IngestLoop
  import opened Retry

  /** A listing shows every document. */
  ghost predicate Enumerates(order: seq<string>, docs: Collection) {
    forall id | id in docs :: id in order
  }

  lemma {:induction false} FirstWhereFinds(docs: Collection, order: seq<string>, holds: Server -> bool)
    requires Enumerates(order, docs)
    ensures FirstWhere(docs, order, holds) == None <==> forall id | id in docs :: !holds(docs[id])
  {
    FirstWhereLooks(docs, order, holds);
    if FirstWhere(docs, order, holds) == None {
      forall id | id in docs ensures !holds(docs[id]) {
        assert id in order;
      }
    }
  }

  lemma {:induction false} FirstWhereLooks(docs: Collection, order: seq<string>, holds: Server -> bool)
    ensures FirstWhere(docs, order, holds) == None <==> forall id | id in order && id in docs :: !holds(docs[id])
  {
    if order != [] {
      FirstWhereLooks(docs, order[1..], holds);
      assert forall id | id in order :: id == order[0] || id in order[1..];
      assert order[0] in order && forall id | id in order[1..] :: id in order;
    }
  }

  /** A stored machine is found by its serial and vendor, and only it. */
  lemma StoredMachineIsFound(docs: Collection, world: World, task: Task, vendor: Vendor, id: string)
    requires Keyed(docs) && UniqueMachines(docs) && Enumerates(world.natural(docs), docs)
    requires id in docs && NormalizeSerial(task.record) != ""
    requires docs[id].identity.vendor == vendor && docs[id].identity.serialNormalized == NormalizeSerial(task.record)
    ensures FindMachine(docs, world, task, vendor) == Some(docs[id])
    ensures forall second :: Correlate(docs, second, world, task, vendor) == Some(docs[id])
  {
    var serial := NormalizeSerial(task.record);
    assert IsMachine(docs[id], vendor, serial);
    FirstWhereFinds(docs, world.natural(docs), (s: Server) => IsMachine(s, vendor, serial));
    var found := ByVendorSerial(docs, world.natural(docs), vendor, serial);
    assert found.Some?;
    if found.value != id { assert SameMachine(docs[found.value], docs[id]); }
  }

  /** A record without a stored machine is matched by BMC host, for the collector that does, if
      and only if a document of that collector and host is there to be taken. */
  lemma BmcStubIsFound(docs: Collection, world: World, task: Task)
    requires Enumerates(world.natural(docs), docs) && task.providerType == RedfishStandalone
    ensures var bmc, serial := task.engines.parseBmc(task.record.bmcAddressRaw), NormalizeSerial(task.record);
            FindStub(docs, world, task) != None <==>
              && bmc.parsed && Truthy(bmc.host)
              && exists id :: id in docs && docs[id].sourceProvider == Some(RedfishStandalone)
                              && docs[id].network.bmcHost == bmc.host
                              && (serial == "" || docs[id].identity.serialNormalized == "")
    // A record without a serial takes a whole machine of that host before a stub.
    ensures var bmc, found := task.engines.parseBmc(task.record.bmcAddressRaw), FindStub(docs, world, task);
            found != None ==>
              && found.value.sourceProvider == Some(RedfishStandalone) && found.value.network.bmcHost == bmc.host
              && (NormalizeSerial(task.record) != "" ==> found.value.identity.serialNormalized == "")
              && (NormalizeSerial(task.record) == "" && found.value.identity.serialNormalized == "" ==>
                    forall id | id in docs && docs[id].sourceProvider == Some(RedfishStandalone)
                                && docs[id].network.bmcHost == bmc.host :: docs[id].identity.serialNormalized == "")
  {
    var bmc := task.engines.parseBmc(task.record.bmcAddressRaw);
    if bmc.parsed && Truthy(bmc.host) {
      var order := world.natural(docs);
      assert bmc.host == Some(bmc.host.value);
      FirstWhereFinds(docs, order, (s: Server) => IsBmcStub(s, bmc.host.value) && s.identity.serialNormalized == "");
      FirstWhereFinds(docs, order, (s: Server) => IsBmcStub(s, bmc.host.value) && s.identity.serialNormalized != "");
    }
  }

  /** And by name, for the collector that does, if and only if a serial-less document of that
      collector, manager and name is there. */
  lemma NameStubIsFound(docs: Collection, world: World, task: Task)
    requires Enumerates(world.byId(docs), docs) && task.providerType == OpenManage
    ensures FindStub(docs, world, task) != None <==>
              exists id :: id in docs && docs[id].sourceProvider == Some(OpenManage)
                           && docs[id].managerId == task.record.managerId
                           && docs[id].nameNormalized == NormalizeText(task.record.name)
                           && docs[id].identity.serialNormalized == ""
  {
    FirstWhereFinds(docs, world.byId(docs), (s: Server) => IsNameStub(s, task.record));
  }

  lemma NoStubElsewhere(docs: Collection, world: World, task: Task)
    requires task.providerType != RedfishStandalone && task.providerType != OpenManage
    ensures FindStub(docs, world, task) == None
  {
  }

  /** What an attempt is built of: this record and these engines, at this attempt's moment, under the
      record's vendor or, without a serial, that of the document found. */
  lemma AttemptIsOfTheTask(first: Collection, second: Collection, world: World, task: Task, vendor: Vendor, k: nat)
    ensures var a := Prepare(first, second, world, task, vendor, k);
            var serial := if task.record.serial == None then "" else NormalizeText(task.record.serial.value);
            && a.run.record == task.record && a.run.providerType == task.providerType && a.run.now == world.now(k)
            && a.run.vendor == (if a.existing != None && serial == "" then a.existing.value.identity.vendor else vendor)
            && (a.run.lacksBmcSite <==> a.existing != None && world.vintage(a.existing.value) == Older(true))
            && a.built == Build(a.run, a.existing, world.freshId(k))
  {
  }

  /** A document that may only be touched: it carries every field, and a run could change nothing. */
  predicate Settled(existing: Server, built: Server, world: World) {
    world.vintage(existing) == Complete && StableView(built) == StableView(existing)
  }

  /** Nothing that agrees, up to stamps, with what an attempt read moves its stable view. */
  lemma AgreementKeepsView(read: Collection, current: Collection, id: string)
    requires Agrees(read, current) && id in read && id in current && read[id].revision == current[id].revision
    ensures StableView(read[id]) == StableView(current[id])
  {
  }

  /** The write of an attempt over a document it read: the stored document then shows what was
      built, whichever way it was written; it keeps its revision exactly when it was complete and
      showed that before, and is otherwise the built document itself. */
  lemma WriteShowsWhatWasBuilt(read: Collection, current: Collection, a: Attempt, world: World)
    requires Keyed(current) && Agrees(read, current) && Aimed(a, current)
    requires a.existing != None && a.existing.value.id in read && read[a.existing.value.id] == a.existing.value
    requires a.built.revision == a.existing.value.revision + 1
    requires a.idle == IsUnchanged(a.existing, a.built, world)
    requires Write(current, a).0 == Written
    ensures var existing, stored := a.existing.value, Write(current, a).1[a.built.id];
            && StableView(stored) == StableView(a.built)
            && (Settled(existing, a.built, world) ==> stored.revision == existing.revision && Core(stored) == Core(current[a.built.id]))
            && (!Settled(existing, a.built, world) ==> stored == a.built)
  {
    var existing := a.existing.value;
    if a.idle {
      AgreementKeepsView(read, current, existing.id);
      TouchKeepsCore(current[existing.id], FieldsOf(a));
      StableOfCore(WithSeen(current[existing.id], FieldsOf(a)), current[existing.id]);
    }
  }

  /** How an attempt stands to what its lookups found. */
  predicate PreparedFrom(a: Attempt, first: Collection, second: Collection, world: World, name: string, freshId: string) {
    && a.idle == IsUnchanged(a.existing, a.built, world)
    && a.built.name == name
    && (a.existing != None ==>
          && (IsThere(first, a.existing.value) || IsThere(second, a.existing.value))
          && a.built.id == a.existing.value.id && a.built.revision == a.existing.value.revision + 1
          && (a.run.engines.evaluate.None? ==> a.built.health == a.existing.value.health))
    && (a.existing == None ==> a.built.id == freshId)
  }

  predicate IsThere(docs: Collection, server: Server) {
    server.id in docs && docs[server.id] == server
  }

  lemma PreparedParts(first: Collection, second: Collection, world: World, task: Task, vendor: Vendor, k: nat)
    requires Keyed(first) && Keyed(second)
    ensures var a := Prepare(first, second, world, task, vendor, k);
            && a.existing == Correlate(first, second, world, task, vendor)
            && PreparedFrom(a, first, second, world, task.record.name, world.freshId(k))
  {
    var existing := Correlate(first, second, world, task, vendor);
    SerialReachesItsMachine(first, second, world, task, vendor);
    BuildIsJudgedDraft(RunOf(task, vendor, existing, world, k), existing, world.freshId(k));
  }

  /** Whatever the lookups of a call see, its attempts are built from it. */
  ghost predicate PreparesRight(prepare: (Collection, Collection, nat) -> Attempt, world: World, name: string) {
    forall first, second, k: nat | Keyed(first) && Keyed(second) ::
      PreparedFrom(prepare(first, second, k), first, second, world, name, world.freshId(k))
  }

  lemma IngestPreparesRight(world: World, task: Task, vendor: Vendor)
    ensures PreparesRight(Preparing(world, task, vendor), world, task.record.name)
  {
    forall first, second, k: nat | Keyed(first) && Keyed(second)
      ensures PreparedFrom(Preparing(world, task, vendor)(first, second, k), first, second, world, task.record.name,
                           world.freshId(k))
    {
      PreparedParts(first, second, world, task, vendor, k);
    }
  }

  /** What a call answers when its write went through. */
  lemma AnswerSaysHow(outcome: WriteOutcome, a: Attempt, world: World)
    requires a.idle == IsUnchanged(a.existing, a.built, world)
    ensures var result := AnswerOf(outcome, a);
            && (result == Duplicate <==> outcome == DuplicateKey)
            && (result == KeptChanging <==> outcome == RevisionConflict || outcome == Missing)
            && (result.Ingested? <==> outcome == Written)
            && (outcome == Written ==>
                  && StableView(result.server) == StableView(a.built)
                  && result.server.id == a.built.id
                  && (result.outcome == Created <==> a.existing == None)
                  && (result.outcome == Unchanged <==> a.existing != None && Settled(a.existing.value, a.built, world))
                  && result.server.revision ==
                     if result.outcome == Unchanged then a.existing.value.revision else a.built.revision)
  {
    if a.existing != None { StoredIsStable(a.built, a.existing.value); }
  }

  lemma InsertStoresWhatWasBuilt(current: Collection, a: Attempt)
    requires a.existing == None && Write(current, a).0 == Written
    ensures a.built.id in Write(current, a).1 && Write(current, a).1[a.built.id] == a.built
  {
  }

  /** A stored document shows an answered one: alike in all a run can change, at one revision. */
  predicate Shows(stored: Server, answered: Server) {
    StableView(stored) == StableView(answered) && stored.revision == answered.revision
  }

  /** What a call's answer says of the store: the answered server is there, at its revision, under
      the record's name, and just as answered unless only its stamps were refreshed. */
  predicate StoredAsAnswered(docs: Collection, result: Result, name: string)
    requires result.Ingested?
  {
    && result.server.id in docs
    && Shows(docs[result.server.id], result.server)
    && docs[result.server.id].name == name
    && (result.outcome != Unchanged ==> docs[result.server.id] == result.server)
  }

  lemma AnswerIsStored(read: Collection, current: Collection, a: Attempt, world: World)
    requires Keyed(current) && Agrees(read, current) && Aimed(a, current)
    requires a.idle == IsUnchanged(a.existing, a.built, world)
    requires a.existing != None ==>
               && a.existing.value.id in read && read[a.existing.value.id] == a.existing.value
               && a.built.revision == a.existing.value.revision + 1
    requires Write(current, a).0 == Written
    ensures StoredAsAnswered(Write(current, a).1, AnswerOf(Written, a), a.built.name)
  {
    AnswerSaysHow(Written, a, world);
    if a.existing == None {
      InsertStoresWhatWasBuilt(current, a);
    } else {
      WriteShowsWhatWasBuilt(read, current, a, world);
      WriteKeepsId(current, a);
      ViewKeepsName(Write(current, a).1[a.built.id], a.built);
    }
  }

  lemma WriteKeepsId(current: Collection, a: Attempt)
    requires a.existing != None && a.built.id == a.existing.value.id && Write(current, a).0 == Written
    ensures a.built.id in Write(current, a).1
  {
  }

  lemma ViewKeepsName(x: Server, y: Server)
    requires StableView(x) == StableView(y)
    ensures x.name == y.name
  {
  }

  /** When the document is still just as it was read, what is stored is exactly what is answered,
      stamps and readings too, whether it was written or only touched. */
  lemma QuietCallStoresItsVeryAnswer(first: Collection, second: Collection, current: Collection, world: World, task: Task,
                                     vendor: Vendor, k: nat, a: Attempt)
    requires Keyed(first) && Keyed(second) && a == Prepare(first, second, world, task, vendor, k)
    requires Write(current, a).0 == Written
    requires a.existing != None ==> IsThere(current, a.existing.value)
    ensures a.built.id in Write(current, a).1
    ensures Write(current, a).1[a.built.id] == AnswerOf(Written, a).server
  {
    PreparedParts(first, second, world, task, vendor, k);
    AttemptIsOfTheTask(first, second, world, task, vendor, k);
    if a.existing == None {
      InsertStoresWhatWasBuilt(current, a);
    } else {
      WriteKeepsId(current, a);
      QuietWrite(current, a, world.freshId(k));
    }
  }

  lemma QuietWrite(current: Collection, a: Attempt, freshId: string)
    requires a.existing != None && a.built == Build(a.run, a.existing, freshId) && a.built.id == a.existing.value.id
    requires IsThere(current, a.existing.value) && Write(current, a).0 == Written
    requires a.idle ==> StableView(a.built) == StableView(a.existing.value)
    ensures a.built.id in Write(current, a).1 && Write(current, a).1[a.built.id] == AnswerOf(Written, a).server
  {
    if a.idle { TouchStoresWhatWasBuilt(a.run, a.existing.value, freshId); }
  }

  /** The other writers of a call keep the protocol: every state they leave is a well-kept
      collection, moves a document only with its revision, and has no use for the call's new ids. */
  ghost predicate Lawful(docs: Collection, world: World) {
    && (forall i: nat :: WellKept(StateAt(docs, world, i), world))
    && (forall i: nat, j: nat | i <= j :: Agrees(StateAt(docs, world, i), StateAt(docs, world, j)))
  }

  /** What the other writers have left after so many turns, the call itself having written nothing. */
  ghost function StateAt(docs: Collection, world: World, turns: nat): Collection {
    Disturbed(docs, world.others, 0, turns)
  }

  ghost predicate WellKept(docs: Collection, world: World) {
    Keyed(docs) && UniqueMachines(docs) && forall k: nat :: world.freshId(k) !in docs
  }

  /** What a call tells: exactly the changes between the document it found and the one it built. */
  predicate Tells(events: seq<Transition>, existing: Option<Server>, built: Server, event: Transition) {
    event in events <==>
      match event
      case ServerCreated(vendor, name) => existing == None && vendor == built.identity.vendor && name == built.name
      case ServerRenamed(a, b) => existing != None && a == existing.value.name && b == built.name && a != b
      case ClassificationChanged(a, b) =>
        existing != None && a == existing.value.classification.installationType
        && b == built.classification.installationType && a != b
      case HealthChanged(a, b) =>
        existing != None && a == existing.value.health.overall && b == built.health.overall && a != b
  }

  /** What an attempt announces is every change, skipped or not. */
  lemma AttemptTellsEveryChange(a: Attempt, world: World, event: Transition)
    requires a.idle == IsUnchanged(a.existing, a.built, world)
    requires a.existing != None && a.run.engines.evaluate.None? ==> a.built.health == a.existing.value.health
    ensures Tells(Announced(a), a.existing, a.built, event)
  {
    if a.existing != None {
      AnnouncesEveryChange(a.built, a.existing.value, a.run.engines.evaluate.Some?, event);
      if a.idle { SkippedServersAreSilent(a.built, a.existing.value, a.run.engines.evaluate.Some?); }
    }
  }

  /** How a call that returned stands to what its last lookups found: the store holds what it
      answers; it says `Created` exactly when they found nothing, `Unchanged` exactly when what they
      found was complete and showed all the record says; and it tells every change between what
      they found and what it built, and nothing else. */
  predicate ConcludesRight(a: Attempt, docs: Collection, world: World, name: string, event: Transition) {
    var result := AnswerOf(Written, a);
    && StoredAsAnswered(docs, result, name)
    && (result.outcome == Created <==> a.existing == None)
    && (result.outcome == Unchanged <==> a.existing != None && Settled(a.existing.value, a.built, world))
    && Tells(Announced(a), a.existing, a.built, event)
  }

  lemma AttemptConcludesRight(a: Attempt, first: Collection, second: Collection, current: Collection, after: Collection,
                              world: World, name: string, freshId: string, event: Transition)
    requires PreparedFrom(a, first, second, world, name, freshId)
    requires Keyed(current) && Agrees(first, current) && Agrees(second, current) && freshId !in current
    requires Write(current, a) == (Written, after)
    ensures ConcludesRight(a, after, world, name, event)
  {
    if a.existing != None && IsThere(first, a.existing.value) {
      AnswerIsStored(first, current, a, world);
    } else {
      AnswerIsStored(second, current, a, world);
    }
    AnswerSaysHow(Written, a, world);
    AttemptTellsEveryChange(a, world, event);
  }

  /** The attempt a call ended with, and the states its lookups and its write met. */
  lemma EndedWith(docs: Collection, world: World, prepare: (Collection, Collection, nat) -> Attempt, ended: Ended<Attempt>)
    returns (first: Collection, second: Collection, current: Collection)
    requires Lawful(docs, world) && EndsRight(docs, world.others, prepare, Write, 0, ended) && ended.outcome == Written
    ensures ended.tries > 0
    ensures ended.last == prepare(first, second, ended.tries - 1) && Write(current, ended.last) == (Written, ended.docs)
    ensures WellKept(first, world) && WellKept(second, world) && WellKept(current, world)
    ensures Agrees(first, current) && Agrees(second, current)
  {
    var n := TURNS * (ended.tries - 1);
    first, second, current := StateAt(docs, world, n), StateAt(docs, world, n + 1), StateAt(docs, world, n + 2);
  }

  /** A whole call, among writers that keep the protocol, concludes right: whatever they did while
      it ran, and however often it had to start over. */
  lemma CallConcludesRight(docs: Collection, world: World, prepare: (Collection, Collection, nat) -> Attempt, name: string,
                           ended: Ended<Attempt>, event: Transition)
    requires Lawful(docs, world) && PreparesRight(prepare, world, name)
    requires EndsRight(docs, world.others, prepare, Write, 0, ended) && ended.outcome == Written
    ensures ConcludesRight(ended.last, ended.docs, world, name, event)
  {
    var first, second, current := EndedWith(docs, world, prepare, ended);
    AttemptConcludesRight(ended.last, first, second, current, ended.docs, world, name, world.freshId(ended.tries - 1), event);
  }

  lemma CallEndsRight(docs: Collection, others: Others, prepare: (Collection, Collection, nat) -> Attempt)
    ensures EndsRight(docs, others, prepare, Write, 0, Attempts(docs, others, prepare, Write, 0))
  {
    WriteIsAllOrNothing();
    OneChangeAtMost(docs, others, prepare, Write, 0);
  }

  /** What the service relies on at the end of a call. */
  lemma CallStoresItsAnswer(docs: Collection, world: World, prepare: (Collection, Collection, nat) -> Attempt, name: string,
                            ended: Ended<Attempt>)
    requires ended == Attempts(docs, world.others, prepare, Write, 0)
    ensures Lawful(docs, world) && PreparesRight(prepare, world, name) && AnswerOf(ended.outcome, ended.last).Ingested? ==>
              StoredAsAnswered(ended.docs, AnswerOf(ended.outcome, ended.last), name)
  {
    if Lawful(docs, world) && PreparesRight(prepare, world, name) && AnswerOf(ended.outcome, ended.last).Ingested? {
      CallEndsRight(docs, world.others, prepare);
      CallConcludesRight(docs, world, prepare, name, ended, ServerRenamed("", ""));
    }
  }
}
