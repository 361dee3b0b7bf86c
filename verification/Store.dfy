/** The servers collection as its writers see it: a compare-and-set on `revision`,
    a conditional refresh of the "last confirmed" stamps, an insert guarded by the
    one unique index, and a delete. */
module Store {
  import opened Documents

  type Collection = map<string, Server>

  datatype WriteOutcome = Written | RevisionConflict | Missing | DuplicateKey

  datatype Reading = Reading(temperatureCelsius: Option<real>, powerWatts: Option<real>)

  /** What `touch_seen` sets. `None` is a path the update does not name, except for
      `listedAt`, which every update names. */
  datatype SeenFields = SeenFields(
    listedAt: Option<Instant>,
    lastSeenAt: Option<Instant>,
    evaluatedAt: Option<Instant>,
    classifiedAt: Option<Instant>,
    attachmentsSeen: Option<Option<Instant>>,
    gpus: seq<Reading>,
    psus: seq<Option<real>>)

  /** Two documents claiming one machine under `uniq_vendor_serial`, a partial index
      that skips documents without a serial. */
  predicate SameMachine(a: Server, b: Server) {
    && a.identity.serialNormalized != ""
    && a.identity.serialNormalized == b.identity.serialNormalized
    && a.identity.vendor == b.identity.vendor
  }

  predicate Collides(docs: Collection, server: Server) {
    exists id | id in docs :: id != server.id && SameMachine(server, docs[id])
  }

  ghost predicate UniqueMachines(docs: Collection) {
    forall i, j | i in docs && j in docs && i != j :: !SameMachine(docs[i], docs[j])
  }

  ghost predicate Keyed(docs: Collection) {
    forall id | id in docs :: docs[id].id == id
  }

  function ReplaceIfRevision(docs: Collection, server: Server, expected: int): (WriteOutcome, Collection) {
    if server.id !in docs then (Missing, docs)
    else if docs[server.id].revision != expected then (RevisionConflict, docs)
    else if Collides(docs, server) then (DuplicateKey, docs)
    else (Written, docs[server.id := server])
  }

  function ReplaceOrInsert(docs: Collection, server: Server): (WriteOutcome, Collection) {
    if Collides(docs, server) then (DuplicateKey, docs) else (Written, docs[server.id := server])
  }

  function TouchIfRevision(docs: Collection, id: string, expected: int, fields: SeenFields): (bool, Collection) {
    if id in docs && docs[id].revision == expected
    then (true, docs[id := WithSeen(docs[id], fields)])
    else (false, docs)
  }

  function WithSeen(server: Server, fields: SeenFields): Server {
    server.(
    listedAt := fields.listedAt,
    lastSeenAt := if fields.lastSeenAt.Some? then fields.lastSeenAt else server.lastSeenAt,
    health := server.health.(
      evaluatedAt := if fields.evaluatedAt.Some? then fields.evaluatedAt else server.health.evaluatedAt),
    classification := server.classification.(
      classifiedAt := if fields.classifiedAt.Some? then fields.classifiedAt else server.classification.classifiedAt),
    connectivity := server.connectivity.(
      attachments := SeenAttachments(server.connectivity.attachments, fields.attachmentsSeen)),
    hardware := server.hardware.(
      gpus := ReadGpus(server.hardware.gpus, fields.gpus),
      psus := ReadPsus(server.hardware.psus, fields.psus)))
  }

  function SeenAttachments(attachments: seq<Attachment>, seen: Option<Option<Instant>>): seq<Attachment> {
    if seen.None? then attachments
    else seq(|attachments|, i requires 0 <= i < |attachments| => attachments[i].(lastSeen := seen.value))
  }

  function ReadGpus(gpus: seq<Gpu>, readings: seq<Reading>): seq<Gpu> {
    seq(|gpus|, i requires 0 <= i < |gpus| =>
      if i < |readings|
      then gpus[i].(temperatureCelsius := readings[i].temperatureCelsius, powerWatts := readings[i].powerWatts)
      else gpus[i])
  }

  function ReadPsus(psus: seq<Psu>, readings: seq<Option<real>>): seq<Psu> {
    seq(|psus|, i requires 0 <= i < |psus| => if i < |readings| then psus[i].(powerWatts := readings[i]) else psus[i])
  }

  /** A document without the stamps and live readings a touch may refresh. */
  function Core(server: Server): Server {
    server.(
    listedAt := None,
    lastSeenAt := None,
    health := server.health.(evaluatedAt := None),
    classification := server.classification.(classifiedAt := None),
    connectivity := server.connectivity.(attachments := UnseenAttachments(server.connectivity.attachments)),
    hardware := server.hardware.(gpus := UnreadGpus(server.hardware.gpus), psus := UnreadPsus(server.hardware.psus)))
  }

  function UnseenAttachments(attachments: seq<Attachment>): seq<Attachment> {
    seq(|attachments|, i requires 0 <= i < |attachments| => attachments[i].(lastSeen := None))
  }

  function UnreadGpus(gpus: seq<Gpu>): seq<Gpu> {
    seq(|gpus|, i requires 0 <= i < |gpus| => gpus[i].(temperatureCelsius := None, powerWatts := None))
  }

  function UnreadPsus(psus: seq<Psu>): seq<Psu> {
    seq(|psus|, i requires 0 <= i < |psus| => psus[i].(powerWatts := None))
  }

  /** A touch moves stamps and readings and nothing else. */
  lemma TouchKeepsCore(server: Server, fields: SeenFields)
    ensures Core(WithSeen(server, fields)) == Core(server)
  {
    var touched := WithSeen(server, fields);
    assert UnseenAttachments(touched.connectivity.attachments) == UnseenAttachments(server.connectivity.attachments);
    assert UnreadGpus(touched.hardware.gpus) == UnreadGpus(server.hardware.gpus);
    assert UnreadPsus(touched.hardware.psus) == UnreadPsus(server.hardware.psus);
  }

  /** A compare-and-set never creates a document, never touches another one, and changes
      nothing unless the revision it expected was the stored one. */
  lemma ReplaceIsExact(docs: Collection, server: Server, expected: int)
    requires Keyed(docs) && UniqueMachines(docs)
    ensures var (outcome, after) := ReplaceIfRevision(docs, server, expected);
            && after.Keys == docs.Keys
            && (forall id | id in docs && id != server.id :: after[id] == docs[id])
            && (outcome != Written ==> after == docs)
            && (outcome == Written <==>
                && server.id in docs && docs[server.id].revision == expected
                && UniqueMachines(docs[server.id := server]))
            && Keyed(after) && UniqueMachines(after)
  {
    var (outcome, after) := ReplaceIfRevision(docs, server, expected);
    var replaced := docs[server.id := server];
    if server.id in docs && Collides(docs, server) {
      var id :| id in docs && id != server.id && SameMachine(server, docs[id]);
      assert SameMachine(replaced[server.id], replaced[id]);
    }
    if outcome == Written {
      forall i, j | i in after && j in after && i != j ensures !SameMachine(after[i], after[j]) {
        if i == server.id { assert !SameMachine(server, docs[j]); }
        if j == server.id { assert !SameMachine(server, docs[i]); }
      }
    }
  }

  /** A touch reaches one document, at one revision, and leaves its core, its identity and
      its revision alone. */
  lemma TouchIsExact(docs: Collection, id: string, expected: int, fields: SeenFields)
    requires Keyed(docs) && UniqueMachines(docs)
    ensures var (touched, after) := TouchIfRevision(docs, id, expected, fields);
            && after.Keys == docs.Keys
            && (forall i | i in docs && !(touched && i == id) :: after[i] == docs[i])
            && (forall i | i in docs ::
                  Core(after[i]) == Core(docs[i]) && after[i].identity == docs[i].identity
                  && after[i].id == docs[i].id && after[i].revision == docs[i].revision)
            && (touched <==> id in docs && docs[id].revision == expected)
            && Keyed(after) && UniqueMachines(after)
  {
    var (touched, after) := TouchIfRevision(docs, id, expected, fields);
    if touched { TouchKeepsCore(docs[id], fields); }
    forall i, j | i in after && j in after && i != j ensures !SameMachine(after[i], after[j]) {
      assert !SameMachine(docs[i], docs[j]);
    }
  }

  /** An insert of a new id either adds exactly that document or, when it names a machine
      already stored, nothing. */
  lemma InsertIsExact(docs: Collection, server: Server)
    requires Keyed(docs) && UniqueMachines(docs) && server.id !in docs
    ensures var (outcome, after) := ReplaceOrInsert(docs, server);
            && after == (if outcome == Written then docs[server.id := server] else docs)
            && (outcome == Written <==> UniqueMachines(docs[server.id := server]))
            && (outcome == Written || outcome == DuplicateKey)
            && Keyed(after) && UniqueMachines(after)
  {
    var added := docs[server.id := server];
    if Collides(docs, server) {
      var id :| id in docs && id != server.id && SameMachine(server, docs[id]);
      assert SameMachine(added[server.id], added[id]);
    } else {
      forall i, j | i in added && j in added && i != j ensures !SameMachine(added[i], added[j]) {
        if i == server.id { assert !SameMachine(server, docs[j]); }
        if j == server.id { assert !SameMachine(server, docs[i]); }
      }
    }
  }

  /** The collection as one process holds it. */
  class ServerRepository {
    var docs: Collection

    constructor (docs: Collection)
      ensures this.docs == docs
    {
      this.docs := docs;
    }

    method GetById(id: string) returns (found: Option<Server>)
      ensures found == if id in docs then Some(docs[id]) else None
    {
      if id in docs { return Some(docs[id]); }
      return None;
    }

    method Upsert(server: Server) returns (outcome: WriteOutcome)
      modifies this
      ensures (outcome, docs) == ReplaceOrInsert(old(docs), server)
    {
      if Collides(docs, server) { return DuplicateKey; }
      docs := docs[server.id := server];
      return Written;
    }

    method UpsertWithRevisionCheck(server: Server, expectedRevision: int) returns (outcome: WriteOutcome)
      modifies this
      ensures (outcome, docs) == ReplaceIfRevision(old(docs), server, expectedRevision)
    {
      var matched := server.id in docs && docs[server.id].revision == expectedRevision;
      if !matched {
        var current := GetById(server.id);
        if current.None? { return Missing; }
        return RevisionConflict;
      }
      if Collides(docs, server) { return DuplicateKey; }
      docs := docs[server.id := server];
      return Written;
    }

    method TouchSeen(id: string, expectedRevision: int, fields: SeenFields) returns (touched: bool)
      modifies this
      ensures (touched, docs) == TouchIfRevision(old(docs), id, expectedRevision, fields)
    {
      touched := id in docs && docs[id].revision == expectedRevision;
      if touched {
        docs := docs[id := WithSeen(docs[id], fields)];
      }
    }

    method Delete(id: string) returns (deleted: bool)
      modifies this
      ensures deleted == (id in old(docs)) && docs == old(docs) - {id}
    {
      deleted := id in docs;
      docs := docs - {id};
    }
  }
}
