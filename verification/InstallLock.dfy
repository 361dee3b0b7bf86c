/** The install lock under every interleaving: nobody ever takes a machine another claim holds. */
module InstallLock {
  import opened Documents
  import opened Store
  import opened Reservations
  import opened Protocol
  import opened Ownership

  /** A claim that commits never replaces a lock of another claim that is live at that instant,
      and an extension of its own live lock keeps the moment of the first taking. */
  lemma NoLiveLockIsTaken(s: State, writer: nat)
    requires Sound(s) && writer in s.flights
    requires s.flights[writer].job.Reserving? && Land(s.docs, s.flights[writer]).0
    ensures var request := s.flights[writer].job.request;
            var taken := Product(s.flights[writer]);
            && taken.id in s.docs
            && SameClaim(taken.reservation, request.holder, request.workflowId)
            && (s.docs[taken.id].reservation.IsLive(s.clock) ==>
                  && SameClaim(s.docs[taken.id].reservation, request.holder, request.workflowId)
                  && taken.reservation.createdAt == s.docs[taken.id].reservation.createdAt)
  {
    var flight := s.flights[writer];
    assert SnapshotSound(s, flight);
    CommitReplacesWhatWasRead(s, writer);
    CoreFixesFacets(flight.snapshot.value, s.docs[flight.snapshot.value.id], Lock);
  }

  /** A release that commits gives back the very lock it read, and one that names a holder lands
      only on a lock that names that holder and workflow. */
  lemma ReleaseLandsOnItsOwnLock(s: State, writer: nat)
    requires Sound(s) && writer in s.flights
    requires s.flights[writer].job.Releasing? && Land(s.docs, s.flights[writer]).0
    ensures Product(s.flights[writer]).id in s.docs && Product(s.flights[writer]).reservation == NO_RESERVATION
    ensures var job, lock := s.flights[writer].job, s.docs[Product(s.flights[writer]).id].reservation;
            && lock == s.flights[writer].snapshot.value.reservation
            && lock.holder != None
            && (job.holder != None ==> lock.holder == job.holder && lock.workflowId == job.workflowId)
  {
    var flight := s.flights[writer];
    assert SnapshotSound(s, flight);
    CommitReplacesWhatWasRead(s, writer);
    CoreFixesFacets(flight.snapshot.value, s.docs[flight.snapshot.value.id], Lock);
    ReleaseIsAllowed(flight);
  }

  lemma ReleaseIsAllowed(flight: Flight)
    requires flight.snapshot.Some? && flight.job.Releasing? && Plans(flight).Replace?
    ensures var lock := flight.snapshot.value.reservation;
            && lock.holder != None
            && (flight.job.holder != None ==> lock.holder == flight.job.holder && lock.workflowId == flight.job.workflowId)
    ensures Product(flight).reservation == NO_RESERVATION && Product(flight).id == flight.snapshot.value.id
  {
  }

  /** A writer whose commit does not go through, or whose plan is to stop, leaves every
      document as it was, stamps aside. */
  lemma RefusalChangesNothing(s: State, writer: nat)
    requires Sound(s) && writer in s.flights && !Land(s.docs, s.flights[writer]).0
    requires !s.flights[writer].job.Touching?
    ensures Apply(s, Commit(writer)).docs == s.docs && Apply(s, Commit(writer)).log == s.log
  {
    QuietPlanIsIdle(s.docs, s.flights[writer]);
  }

  lemma QuietPlanIsIdle(docs: Collection, flight: Flight)
    requires !Land(docs, flight).0 && !flight.job.Touching?
    ensures Land(docs, flight).1 == docs
  {
  }

  predicate Claims(entry: Entry, id: string, holder: string, workflowId: Option<string>) {
    && entry.after.id == id
    && entry.flight.job.Reserving?
    && entry.flight.job.request.holder == holder
    && entry.flight.job.request.workflowId == workflowId
  }

  /** The last of the first `n` entries to decide the lock of `id`. */
  function LockDecision(log: seq<Entry>, n: nat, id: string): Option<nat>
    requires n <= |log|
  {
    if n == 0 then None
    else if log[n - 1].after.id == id && (log[n - 1].flight.snapshot.None? || Owns(log[n - 1].flight.job, Lock))
    then Some(n - 1)
    else LockDecision(log, n - 1, id)
  }

  lemma LockDecisionIsLast(log: seq<Entry>, n: nat, id: string)
    requires n <= |log|
    ensures match LockDecision(log, n, id)
            case None => LastDecision(log[..n], id, Lock) == None
            case Some(q) => q < n && log[q].after.id == id && LastDecision(log[..n], id, Lock) == Some(log[q])
    ensures forall k | 0 <= k < n && log[k].after.id == id && Owns(log[k].flight.job, Lock) ::
              LockDecision(log, n, id).Some? && k <= LockDecision(log, n, id).value
  {
    if n > 0 { assert log[..n][..n - 1] == log[..n - 1]; }
  }

  lemma {:induction false} LinearPrefix(log: seq<Entry>, n: nat)
    requires Linear(log) && n <= |log|
    ensures Linear(log[..n])
    ensures forall k | n <= k < |log| :: n > 0 ==> log[n - 1].at <= log[k].at
    ensures n < |log| ==> Faithful(log[n]) && Follows(log[n], LastVersion(log[..n], log[n].after.id))
    decreases |log| - n
  {
    if n == |log| {
      assert log[..n] == log;
    } else {
      LinearPrefix(log, n + 1);
      assert log[..n + 1][..n] == log[..n];
    }
  }

  /** The lock an entry was built on is the one its last decision before it left behind. */
  lemma LockRead(log: seq<Entry>, m: nat)
    requires Linear(log) && m < |log| && log[m].flight.snapshot.Some?
    ensures var q := LockDecision(log, m, log[m].after.id);
            && q.Some? && q.value < m && log[q.value].after.id == log[m].after.id
            && log[q.value].at <= log[m].at
            && log[q.value].after.reservation == log[m].flight.snapshot.value.reservation
  {
    LinearPrefix(log, m);
    LockInherited(log[..m], log[m]);
    LockDecisionIsLast(log, m, log[m].after.id);
    LinearPrefix(log, LockDecision(log, m, log[m].after.id).value + 1);
  }

  lemma LockInherited(log: seq<Entry>, entry: Entry)
    requires Linear(log) && entry.flight.snapshot.Some? && Follows(entry, LastVersion(log, entry.after.id))
    ensures var decision := LastDecision(log, entry.after.id, Lock);
            decision.Some? && decision.value.after.reservation == entry.flight.snapshot.value.reservation
  {
    DecisionStands(log, entry.after.id, Lock);
    CoreFixesFacets(entry.flight.snapshot.value, LastVersion(log, entry.after.id).value.after, Lock);
  }

  /** Only a document that exists can be claimed. */
  lemma ClaimReads(entry: Entry)
    requires Faithful(entry) && entry.flight.job.Reserving?
    ensures entry.flight.snapshot.Some?
  {
  }

  /** What a lock decision can be: a creation or a release leaves no lock, a claim leaves its own. */
  lemma DecisionLeaves(entry: Entry)
    requires Faithful(entry) && (entry.flight.snapshot.None? || Owns(entry.flight.job, Lock))
    ensures entry.flight.job.Reserving? || entry.after.reservation == NO_RESERVATION
    ensures entry.flight.job.Reserving? ==>
              && SameClaim(entry.after.reservation, entry.flight.job.request.holder, entry.flight.job.request.workflowId)
              && entry.after.reservation.expiresAt.Some?
  {
  }

  lemma FaithfulAt(log: seq<Entry>, k: nat)
    requires Linear(log) && k < |log|
    ensures Faithful(log[k])
  {
    LinearPrefix(log, k);
  }

  /** A claim that goes through was either free to or its own. */
  lemma ClaimWasAllowed(entry: Entry)
    requires Faithful(entry) && entry.flight.job.Reserving? && entry.flight.snapshot.Some?
    ensures MayReserve(entry.flight.snapshot.value.reservation, entry.flight.job.request, entry.flight.decidedAt)
    ensures entry.flight.decidedAt <= entry.at
  {
  }

  /** Mutual exclusion over whole runs. When one claim commits and a different one commits
      later on the same server, then in between the first was released, or the first had run
      out: some commit of the first claim (itself or an extension) promised an expiry that had
      passed by the time the second committed. */
  lemma {:induction false} OneClaimAtATime(log: seq<Entry>, k: nat, m: nat)
    requires Linear(log) && k < m < |log|
    requires log[k].flight.job.Reserving? && log[m].flight.job.Reserving? && log[k].after.id == log[m].after.id
    requires var first, second := log[k].flight.job.request, log[m].flight.job.request;
             first.holder != second.holder || first.workflowId != second.workflowId
    ensures exists p | k <= p < m ::
              && log[p].after.id == log[k].after.id
              && (log[p].flight.job.Releasing? ||
                  (&& Claims(log[p], log[k].after.id, log[k].flight.job.request.holder, log[k].flight.job.request.workflowId)
                   && log[p].after.reservation.expiresAt.Some?
                   && log[p].after.reservation.expiresAt.value <= log[m].at))
    decreases m
  {
    var id := log[m].after.id;
    FaithfulAt(log, m);
    ClaimReads(log[m]);
    LockRead(log, m);
    LockDecisionIsLast(log, m, id);
    var q := LockDecision(log, m, id).value;
    FaithfulAt(log, q);
    ClaimWasAllowed(log[m]);
    DecisionIsALockJob(log, m, id);
    DecisionLeaves(log[q]);
    assert k <= q;
    if k < q { CreatedOnce(log, k, q); }
    if log[q].flight.job.Releasing? {
      assert log[q].after.id == log[k].after.id;
    } else if log[q].flight.job.request.holder == log[k].flight.job.request.holder
              && log[q].flight.job.request.workflowId == log[k].flight.job.request.workflowId {
      assert !SameClaim(log[q].after.reservation, log[m].flight.job.request.holder, log[m].flight.job.request.workflowId);
    } else {
      OneClaimAtATime(log, k, q);
    }
  }

  lemma ExclusionInEveryRun(steps: seq<Step>, k: nat, m: nat)
    requires Schedule(steps) && k < m < |After(steps).log|
    requires After(steps).log[k].flight.job.Reserving? && After(steps).log[m].flight.job.Reserving?
    requires After(steps).log[k].after.id == After(steps).log[m].after.id
    requires var first, second := After(steps).log[k].flight.job.request, After(steps).log[m].flight.job.request;
             first.holder != second.holder || first.workflowId != second.workflowId
    ensures var log := After(steps).log;
            exists p | k <= p < m ::
              && log[p].after.id == log[k].after.id
              && (log[p].flight.job.Releasing? ||
                  (&& Claims(log[p], log[k].after.id, log[k].flight.job.request.holder, log[k].flight.job.request.workflowId)
                   && log[p].after.reservation.expiresAt.Some?
                   && log[p].after.reservation.expiresAt.value <= log[m].at))
  {
    EveryRunIsSound(steps);
    OneClaimAtATime(After(steps).log, k, m);
  }

  lemma DecisionIsALockJob(log: seq<Entry>, n: nat, id: string)
    requires n <= |log| && LockDecision(log, n, id).Some?
    ensures var q := LockDecision(log, n, id).value;
            q < n && (log[q].flight.snapshot.None? || Owns(log[q].flight.job, Lock))
  {
  }

  /** A document is created once: every version after another was built on a read. */
  lemma CreatedOnce(log: seq<Entry>, k: nat, q: nat)
    requires Linear(log) && k < q < |log| && log[k].after.id == log[q].after.id
    ensures log[q].flight.snapshot.Some?
  {
    LinearPrefix(log, q);
    VersionSeen(log, k, q);
  }

  lemma VersionSeen(log: seq<Entry>, k: nat, n: nat)
    requires k < n <= |log|
    ensures LastVersion(log[..n], log[k].after.id).Some?
  {
    assert log[..n][..n - 1] == log[..n - 1];
    if k < n - 1 { VersionSeen(log, k, n - 1); }
  }
}
