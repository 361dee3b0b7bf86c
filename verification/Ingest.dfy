/** Ingesting one provider record, as the service carries it out. */
module Ingest {
  import opened Documents
  import opened Store
  import opened IngestBuild
  import opened IngestSkip
  import opened IngestLoop
  import opened IngestOutcome
  import opened Retry

  class IngestService {
    const repo: ServerRepository
    const audited: bool
    var trail: seq<Transition>

    constructor (repo: ServerRepository, audited: bool)
      ensures this.repo == repo && this.audited == audited && trail == []
    {
      this.repo, this.audited, this.trail := repo, audited, [];
    }

    /** Bring one record into the store, or say why it could not be. */
    method IngestOne(task: Task, world: World) returns (result: Result, tries: nat)
      modifies repo, this`trail
      ensures task.vendor.None? ==>
                result == Unsupported && tries == 0 && repo.docs == old(repo.docs) && trail == old(trail)
      ensures task.vendor.Some? ==>
                var ended := Attempts(old(repo.docs), world.others, Preparing(world, task, task.vendor.value), Write, 0);
                && result == Answer(ended) && tries == ended.tries && repo.docs == ended.docs
                && trail == old(trail) + if audited && ended.outcome == Written then Announced(ended.last) else []
      // Among writers that keep the protocol, what it answers is what is then stored.
      ensures Lawful(old(repo.docs), world) && result.Ingested? ==> StoredAsAnswered(repo.docs, result, task.record.name)
    {
      if task.vendor.None? { return Unsupported, 0; }
      IngestPreparesRight(world, task, task.vendor.value);
      result, tries := Conclude(Preparing(world, task, task.vendor.value), world, task.record.name);
    }

    /** Carry the attempts out, and announce the one that went through. */
    method Conclude(prepare: (Collection, Collection, nat) -> Attempt, world: World, ghost name: string)
      returns (result: Result, tries: nat)
      modifies repo, this`trail
      ensures var ended := Attempts(old(repo.docs), world.others, prepare, Write, 0);
              && result == Answer(ended) && tries == ended.tries && repo.docs == ended.docs
              && trail == old(trail) + if audited && ended.outcome == Written then Announced(ended.last) else []
      ensures Lawful(old(repo.docs), world) && PreparesRight(prepare, world, name) && result.Ingested? ==>
                StoredAsAnswered(repo.docs, result, name)
    {
      ghost var start := repo.docs;
      var last, outcome;
      last, outcome, tries := Settle(prepare, world.others);
      if outcome == Written && audited { trail := trail + Announced(last); }
      result := AnswerOf(outcome, last);
      CallStoresItsAnswer(start, world, prepare, name, Ended(last, outcome, tries, repo.docs));
    }

    /** Look up, build and write, again if the document moved. */
    method Settle(prepare: (Collection, Collection, nat) -> Attempt, others: Others)
      returns (last: Attempt, outcome: WriteOutcome, tries: nat)
      modifies repo
      ensures Ended(last, outcome, tries, repo.docs) == Attempts(old(repo.docs), others, prepare, Write, 0)
    {
      ghost var ended := Attempts(repo.docs, others, prepare, Write, 0);
      tries := 0;
      while true
        invariant tries < MAX_WRITE_ATTEMPTS
        invariant Attempts(repo.docs, others, prepare, Write, tries) == ended
        decreases MAX_WRITE_ATTEMPTS - tries
      {
        var again;
        last, outcome, again := TryOnce(prepare, others, tries);
        tries := tries + 1;
        if !again { return; }
      }
    }

    /** One attempt, and whether another is due; if so the others have had their turn. */
    method TryOnce(prepare: (Collection, Collection, nat) -> Attempt, others: Others, k: nat)
      returns (a: Attempt, outcome: WriteOutcome, again: bool)
      modifies repo
      ensures again ==>
                && k + 1 < MAX_WRITE_ATTEMPTS
                && Attempts(old(repo.docs), others, prepare, Write, k) == Attempts(repo.docs, others, prepare, Write, k + 1)
      ensures !again ==> Attempts(old(repo.docs), others, prepare, Write, k) == Ended(a, outcome, k + 1, repo.docs)
    {
      var first := repo.docs;
      repo.docs := others(TURNS * k)(repo.docs);
      var second := repo.docs;
      a := prepare(first, second, k);
      repo.docs := others(TURNS * k + 1)(repo.docs);
      outcome := WriteAttempt(a);
      AttemptsStep(first, others, prepare, Write, k, second, a, outcome, repo.docs);
      again := outcome != Written && k + 1 < MAX_WRITE_ATTEMPTS;
      if again { repo.docs := others(TURNS * k + 2)(repo.docs); }
    }

    method WriteAttempt(a: Attempt) returns (outcome: WriteOutcome)
      modifies repo
      ensures (outcome, repo.docs) == Write(old(repo.docs), a)
    {
      if a.existing.None? {
        outcome := repo.Upsert(a.built);
      } else if a.idle {
        var touched := repo.TouchSeen(a.existing.value.id, a.existing.value.revision, FieldsOf(a));
        outcome := if touched then Written else RevisionConflict;
      } else {
        outcome := repo.UpsertWithRevisionCheck(a.built, a.existing.value.revision);
      }
    }
  }
}
