/** The install lock: `ReservationService`. */
module Reservations {
  import opened Documents
  import opened Store

  datatype ReserveRequest = ReserveRequest(
    holder: string,
    mceCluster: string,
    infraEnv: Option<string>,
    namespace: Option<string>,
    workflowId: Option<string>,
    ttl: int)

  datatype Refusal = NotFound | HeldByAnother | LostRace | KeyTaken

  datatype Outcome = Granted(server: Server) | Refused(why: Refusal)

  datatype LockEvent =
    | ReservationRefused(id: string, requestedBy: string, heldBy: Option<string>)
    | RaceLost(id: string, requestedBy: string)
    | ServerReserved(id: string, holder: string, workflowId: Option<string>)
    | ServerReleased(id: string, releasedFrom: Option<string>, workflowId: Option<string>)

  /** The holder and the workflow already named in the lock: a second taking by them extends it. */
  predicate SameClaim(existing: Reservation, holder: string, workflowId: Option<string>) {
    existing.holder == Some(holder) && existing.workflowId == workflowId
  }

  predicate MayReserve(existing: Reservation, request: ReserveRequest, now: Instant) {
    !existing.IsLive(now) || SameClaim(existing, request.holder, request.workflowId)
  }

  predicate MayRelease(existing: Reservation, holder: Option<string>, workflowId: Option<string>, now: Instant) {
    existing.IsLive(now) && (holder.None? || SameClaim(existing, holder.value, workflowId))
  }

  function Reserved(server: Server, request: ReserveRequest, now: Instant): Server {
    server.(
    reservation := Reservation(
      Some(request.holder), Some(request.mceCluster), request.infraEnv, request.namespace, request.workflowId,
      if server.reservation.IsLive(now) then server.reservation.createdAt else Some(now),
      Some(now + request.ttl)),
    revision := server.revision + 1,
    updatedAt := now)
  }

  function Released(server: Server, now: Instant): Server {
    server.(reservation := NO_RESERVATION, revision := server.revision + 1, updatedAt := now)
  }

  function Answer(outcome: WriteOutcome, server: Server): Outcome {
    match outcome
    case Written => Granted(server)
    case RevisionConflict => Refused(LostRace)
    case Missing => Refused(NotFound)
    case DuplicateKey => Refused(KeyTaken)
  }

  /** A claim holds its server from the moment it is granted until its expiry: any other
      claim is refused in that window, its own is not, and it still says when it was first taken. */
  lemma GrantedLockExcludes(server: Server, request: ReserveRequest, now: Instant, other: ReserveRequest, later: Instant)
    requires MayReserve(server.reservation, request, now)
    ensures var held := Reserved(server, request, now).reservation;
            && SameClaim(held, request.holder, request.workflowId)
            && (held.IsLive(later) <==> later < now + request.ttl)
            && (MayReserve(held, other, later) <==>
                || later >= now + request.ttl
                || (other.holder == request.holder && other.workflowId == request.workflowId))
            && (server.reservation.IsLive(now) ==> held.createdAt == server.reservation.createdAt)
            && (!server.reservation.IsLive(now) ==> held.createdAt == Some(now))
  {
    var held := Reserved(server, request, now).reservation;
    assert held.holder == Some(request.holder);
  }

  /** Releasing what was just reserved gives back the document as it was, lock cleared,
      two revisions on; and a released server may be reserved by anyone. */
  lemma ReleaseUndoesReserve(server: Server, request: ReserveRequest, now: Instant, later: Instant, next: ReserveRequest)
    requires now <= later < now + request.ttl
    ensures var held := Reserved(server, request, now);
            var freed := Released(held, later);
            && MayRelease(held.reservation, Some(request.holder), request.workflowId, later)
            && freed == server.(reservation := NO_RESERVATION, revision := server.revision + 2, updatedAt := later)
            && MayReserve(freed.reservation, next, later)
            && !MayRelease(freed.reservation, None, None, later)
  {
    assert Reserved(server, request, now).reservation.IsLive(later);
  }

  /** A lock as its fields show it: somebody's, and without an expiry or before it. */
  predicate Held(lock: Reservation, now: Instant) {
    lock.holder != None && (lock.expiresAt == None || now < lock.expiresAt.value)
  }

  /** Who may take a lock and who may give it back, read off its fields: a held lock answers to
      the holder and workflow written in it alone, but for a release that names no holder. */
  lemma LockAnswersToItsHolder(lock: Reservation, request: ReserveRequest, holder: Option<string>,
                               workflowId: Option<string>, now: Instant)
    ensures lock.IsLive(now) <==> Held(lock, now)
    ensures MayReserve(lock, request, now) <==>
              !Held(lock, now) || (lock.holder.value == request.holder && lock.workflowId == request.workflowId)
    ensures MayRelease(lock, holder, workflowId, now) <==>
              Held(lock, now) && (holder == None || (lock.holder == holder && lock.workflowId == workflowId))
  {
    assert lock.holder.Some? ==> lock.holder == Some(lock.holder.value);
  }

  /** A granted lock says who took it, for what, and until when; a released one says nothing. */
  lemma GrantedLockSays(server: Server, request: ReserveRequest, now: Instant)
    ensures var lock := Reserved(server, request, now).reservation;
            && lock.holder == Some(request.holder) && lock.mceCluster == Some(request.mceCluster)
            && lock.infraEnv == request.infraEnv && lock.namespace == request.namespace
            && lock.workflowId == request.workflowId && lock.expiresAt == Some(now + request.ttl)
    ensures Reserved(server, request, now) ==
            server.(reservation := Reserved(server, request, now).reservation, revision := server.revision + 1, updatedAt := now)
    ensures Released(server, now) ==
            server.(reservation := Reservation(None, None, None, None, None, None, None),
                    revision := server.revision + 1, updatedAt := now)
  {
  }

  /** What a caller is told of its write: the server as granted, that the document is gone, that
      another caller moved it first, or that its machine is stored twice. */
  lemma AnswerTellsWhatHappened(docs: Collection, server: Server, expected: int)
    ensures var answer := Answer(ReplaceIfRevision(docs, server, expected).0, server);
            && (answer == Refused(NotFound) <==> server.id !in docs)
            && (answer == Refused(LostRace) <==> server.id in docs && docs[server.id].revision != expected)
            && (answer == Refused(KeyTaken) <==>
                  server.id in docs && docs[server.id].revision == expected && Collides(docs, server))
            && (answer.Granted? ==> answer.server == server)
            && answer != Refused(HeldByAnother)
  {
  }

  class ReservationService {
    const repo: ServerRepository
    var trail: seq<LockEvent>

    constructor (repo: ServerRepository)
      ensures this.repo == repo && trail == []
    {
      this.repo := repo;
      trail := [];
    }

    /** `others` is whatever the other writers commit between this caller's read and its write. */
    method Reserve(id: string, request: ReserveRequest, now: Instant, others: Collection -> Collection)
      returns (result: Outcome)
      requires Keyed(repo.docs)
      modifies repo, this`trail
      ensures id !in old(repo.docs) ==>
                result == Refused(NotFound) && repo.docs == old(repo.docs) && trail == old(trail)
      ensures id in old(repo.docs) && !MayReserve(old(repo.docs)[id].reservation, request, now) ==>
                && result == Refused(HeldByAnother) && repo.docs == old(repo.docs)
                && trail == old(trail) + [ReservationRefused(id, request.holder, old(repo.docs)[id].reservation.holder)]
      ensures id in old(repo.docs) && MayReserve(old(repo.docs)[id].reservation, request, now) ==>
                var read := old(repo.docs)[id];
                var (outcome, after) := ReplaceIfRevision(others(old(repo.docs)), Reserved(read, request, now), read.revision);
                && repo.docs == after
                && result == Answer(outcome, Reserved(read, request, now))
                && trail == old(trail) +
                            (match outcome
                             case Written => [ServerReserved(id, request.holder, request.workflowId)]
                             case RevisionConflict => [RaceLost(id, request.holder)]
                             case _ => [])
      // Read off the lock alone: a held one is refused to anyone but the claim written in it.
      ensures id in old(repo.docs) ==>
                var lock := old(repo.docs)[id].reservation;
                (result == Refused(HeldByAnother) <==>
                   Held(lock, now) && !(lock.holder == Some(request.holder) && lock.workflowId == request.workflowId))
      // Stated of the store alone: a caller that is not granted the lock changes nothing.
      ensures !result.Granted? ==> repo.docs == old(repo.docs) || repo.docs == others(old(repo.docs))
    {
      var found := repo.GetById(id);
      if found.None? { return Refused(NotFound); }
      var server := found.value;
      var existing := server.reservation;

      LockAnswersToItsHolder(existing, request, None, None, now);

      if existing.IsLive(now) && !SameClaim(existing, request.holder, request.workflowId) {
        trail := trail + [ReservationRefused(id, request.holder, existing.holder)];
        return Refused(HeldByAnother);
      }

      result := Take(server, request, now, others);
    }

    /** Write the claim into the document read, if it has not moved. */
    method Take(read: Server, request: ReserveRequest, now: Instant, others: Collection -> Collection)
      returns (result: Outcome)
      modifies repo, this`trail
      ensures var (outcome, after) := ReplaceIfRevision(others(old(repo.docs)), Reserved(read, request, now), read.revision);
              && repo.docs == after
              && result == Answer(outcome, Reserved(read, request, now))
              && trail == old(trail) +
                          (match outcome
                           case Written => [ServerReserved(read.id, request.holder, request.workflowId)]
                           case RevisionConflict => [RaceLost(read.id, request.holder)]
                           case _ => [])
              && (outcome != Written ==> after == others(old(repo.docs)))
    {
      var server, existing := read, read.reservation;
      var expectedRevision := server.revision;
      var createdAt := if existing.IsLive(now) then existing.createdAt else Some(now);
      server := server.(reservation := Reservation(
                          Some(request.holder), Some(request.mceCluster), request.infraEnv, request.namespace,
                          request.workflowId, createdAt, Some(now + request.ttl)));
      server := server.(revision := server.revision + 1);
      server := server.(updatedAt := now);

      repo.docs := others(repo.docs);
      var outcome := repo.UpsertWithRevisionCheck(server, expectedRevision);
      if outcome == RevisionConflict {
        trail := trail + [RaceLost(read.id, request.holder)];
        return Refused(LostRace);
      }
      if outcome == Written {
        trail := trail + [ServerReserved(read.id, request.holder, request.workflowId)];
      }
      return Answer(outcome, server);
    }

    method Release(id: string, holder: Option<string>, workflowId: Option<string>, now: Instant,
                   others: Collection -> Collection)
      returns (result: Outcome)
      requires Keyed(repo.docs)
      modifies repo, this`trail
      ensures id !in old(repo.docs) ==>
                result == Refused(NotFound) && repo.docs == old(repo.docs) && trail == old(trail)
      // Releasing an unheld server succeeds and writes nothing.
      ensures id in old(repo.docs) && !old(repo.docs)[id].reservation.IsLive(now) ==>
                result == Granted(old(repo.docs)[id]) && repo.docs == old(repo.docs) && trail == old(trail)
      // A live lock of another claim stays where it is.
      ensures id in old(repo.docs) && old(repo.docs)[id].reservation.IsLive(now)
              && !MayRelease(old(repo.docs)[id].reservation, holder, workflowId, now) ==>
                result == Refused(HeldByAnother) && repo.docs == old(repo.docs) && trail == old(trail)
      ensures id in old(repo.docs) && MayRelease(old(repo.docs)[id].reservation, holder, workflowId, now) ==>
                var read := old(repo.docs)[id];
                var (outcome, after) := ReplaceIfRevision(others(old(repo.docs)), Released(read, now), read.revision);
                && repo.docs == after
                && result == Answer(outcome, Released(read, now))
                && trail == old(trail) +
                            (if outcome == Written
                             then [ServerReleased(id, read.reservation.holder, read.reservation.workflowId)] else [])
      // Read off the lock alone: a held one is given back by the claim written in it, or by a
      // release that names nobody; to any other the answer is no and the store stays as it was.
      ensures id in old(repo.docs) ==>
                var lock := old(repo.docs)[id].reservation;
                && (result == Refused(HeldByAnother) <==>
                      Held(lock, now) && holder != None && !(lock.holder == holder && lock.workflowId == workflowId))
                && (result == Refused(HeldByAnother) ==> repo.docs == old(repo.docs))
    {
      var found := repo.GetById(id);
      if found.None? { return Refused(NotFound); }
      var server := found.value;
      var existing := server.reservation;
      if !existing.IsLive(now) { return Granted(server); }
      if holder.Some? && !SameClaim(existing, holder.value, workflowId) {
        return Refused(HeldByAnother);
      }

      var expectedRevision := server.revision;
      server := server.(reservation := NO_RESERVATION);
      server := server.(revision := server.revision + 1);
      server := server.(updatedAt := now);

      repo.docs := others(repo.docs);
      var outcome := repo.UpsertWithRevisionCheck(server, expectedRevision);
      if outcome == Written {
        trail := trail + [ServerReleased(id, existing.holder, existing.workflowId)];
      }
      return Answer(outcome, server);
    }
  }
}
