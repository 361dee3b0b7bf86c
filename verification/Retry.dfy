/** Read, build, write conditionally; start over from a fresh reading when the document moved,
    a bounded number of times. */
module Retry {
  import opened Documents
  import opened Store

  const MAX_WRITE_ATTEMPTS := 3

  /** How a call ends: its last attempt, what the write of that came to, and what is stored. */
  datatype Ended<A> = Ended(last: A, outcome: WriteOutcome, tries: nat, docs: Collection)

  // The other writers have three turns in an attempt: between its two lookups, between the last
  // lookup and the write, and, once the write has failed, before the next attempt looks again.
  const TURNS := 3

  type Others = nat -> Collection -> Collection

  /** A call whose attempt `k` finds `docs`. Attempt `k` prepares its write from what its two
      lookups find. */
  function Attempts<A>(docs: Collection, others: Others, prepare: (Collection, Collection, nat) -> A,
                       write: (Collection, A) -> (WriteOutcome, Collection), k: nat): Ended<A>
    decreases MAX_WRITE_ATTEMPTS - k
  {
    var second := others(TURNS * k)(docs);
    var a := prepare(docs, second, k);
    var (outcome, after) := write(others(TURNS * k + 1)(second), a);
    if outcome != Written && k + 1 < MAX_WRITE_ATTEMPTS
    then Attempts(others(TURNS * k + 2)(after), others, prepare, write, k + 1)
    else Ended(a, outcome, k + 1, after)
  }

  /** The collection after the other writers' turns `k` to `n - 1` alone. */
  function Disturbed(docs: Collection, others: Others, k: nat, n: nat): Collection {
    if n <= k then docs else others(n - 1)(Disturbed(docs, others, k, n - 1))
  }

  lemma {:induction false} DisturbedTwice(docs: Collection, others: Others, k: nat, m: nat, n: nat)
    requires k <= m <= n
    ensures Disturbed(Disturbed(docs, others, k, m), others, m, n) == Disturbed(docs, others, k, n)
  {
    if m < n { DisturbedTwice(docs, others, k, m, n - 1); }
  }

  /** A write that does not go through stores nothing. */
  ghost predicate AllOrNothing<A(!new)>(write: (Collection, A) -> (WriteOutcome, Collection)) {
    forall docs, a :: write(docs, a).0 != Written ==> write(docs, a).1 == docs
  }

  /** The attempt a call ends with is built from what its lookups found, written once on what
      the others had left, and, unless the write went through, it is the last allowed. */
  ghost predicate EndsRight<A>(docs: Collection, others: Others, prepare: (Collection, Collection, nat) -> A,
                               write: (Collection, A) -> (WriteOutcome, Collection), k: nat, ended: Ended<A>)
  {
    && k < ended.tries <= MAX_WRITE_ATTEMPTS
    && var first := TURNS * (ended.tries - 1);
       var current := Disturbed(docs, others, TURNS * k, first + 2);
       && ended.last == prepare(Disturbed(docs, others, TURNS * k, first),
                                Disturbed(docs, others, TURNS * k, first + 1), ended.tries - 1)
       && (ended.outcome, ended.docs) == write(current, ended.last)
       && (ended.outcome != Written ==> ended.tries == MAX_WRITE_ATTEMPTS && ended.docs == current)
  }

  lemma EndsRightLater<A>(docs: Collection, others: Others, prepare: (Collection, Collection, nat) -> A,
                          write: (Collection, A) -> (WriteOutcome, Collection), k: nat, ended: Ended<A>)
    requires EndsRight(Disturbed(docs, others, TURNS * k, TURNS * (k + 1)), others, prepare, write, k + 1, ended)
    ensures EndsRight(docs, others, prepare, write, k, ended)
  {
    var first := TURNS * (ended.tries - 1);
    DisturbedTwice(docs, others, TURNS * k, TURNS * (k + 1), first);
    DisturbedTwice(docs, others, TURNS * k, TURNS * (k + 1), first + 1);
    DisturbedTwice(docs, others, TURNS * k, TURNS * (k + 1), first + 2);
  }

  lemma DisturbedThrice(docs: Collection, others: Others, k: nat)
    ensures Disturbed(docs, others, k, k) == docs
    ensures Disturbed(docs, others, k, k + 1) == others(k)(docs)
    ensures Disturbed(docs, others, k, k + 2) == others(k + 1)(others(k)(docs))
    ensures Disturbed(docs, others, k, k + 3) == others(k + 2)(others(k + 1)(others(k)(docs)))
  {
  }

  /** How a call goes on from attempt `k`, in the words of one step of it. */
  lemma AttemptsStep<A>(docs: Collection, others: Others, prepare: (Collection, Collection, nat) -> A,
                        write: (Collection, A) -> (WriteOutcome, Collection), k: nat, second: Collection, a: A,
                        outcome: WriteOutcome, after: Collection)
    requires second == others(TURNS * k)(docs) && a == prepare(docs, second, k)
    requires (outcome, after) == write(others(TURNS * k + 1)(second), a)
    ensures Attempts(docs, others, prepare, write, k) ==
            if outcome != Written && k + 1 < MAX_WRITE_ATTEMPTS
            then Attempts(others(TURNS * k + 2)(after), others, prepare, write, k + 1)
            else Ended(a, outcome, k + 1, after)
  {
  }

  lemma EndsRightNow<A>(docs: Collection, others: Others, prepare: (Collection, Collection, nat) -> A,
                        write: (Collection, A) -> (WriteOutcome, Collection), k: nat, ended: Ended<A>)
    requires k < MAX_WRITE_ATTEMPTS && ended.tries == k + 1
    requires var second := others(TURNS * k)(docs);
             var current := others(TURNS * k + 1)(second);
             && ended.last == prepare(docs, second, k)
             && (ended.outcome, ended.docs) == write(current, ended.last)
             && (ended.outcome != Written ==> k + 1 == MAX_WRITE_ATTEMPTS && ended.docs == current)
    ensures EndsRight(docs, others, prepare, write, k, ended)
  {
    DisturbedThrice(docs, others, TURNS * k);
    assert TURNS * (ended.tries - 1) == TURNS * k;
  }

  lemma EndsRightAfter<A>(docs: Collection, others: Others, prepare: (Collection, Collection, nat) -> A,
                          write: (Collection, A) -> (WriteOutcome, Collection), k: nat, next: Collection, ended: Ended<A>)
    requires next == others(TURNS * k + 2)(others(TURNS * k + 1)(others(TURNS * k)(docs)))
    requires EndsRight(next, others, prepare, write, k + 1, ended)
    ensures EndsRight(docs, others, prepare, write, k, ended)
  {
    DisturbedThrice(docs, others, TURNS * k);
    assert TURNS * k + 3 == TURNS * (k + 1);
    EndsRightLater(docs, others, prepare, write, k, ended);
  }

  /** Every call, whatever the other writers do and whenever, makes at most one change of its
      own, in at most three attempts: its last attempt's write, of what was built from what that
      attempt's lookups found, on top of what the others left. A call that gives up has changed
      nothing. */
  lemma {:induction false} OneChangeAtMost<A(!new)>(docs: Collection, others: Others,
                                                    prepare: (Collection, Collection, nat) -> A,
                                                    write: (Collection, A) -> (WriteOutcome, Collection), k: nat)
    requires k < MAX_WRITE_ATTEMPTS && AllOrNothing(write)
    ensures EndsRight(docs, others, prepare, write, k, Attempts(docs, others, prepare, write, k))
    decreases MAX_WRITE_ATTEMPTS - k
  {
    var second := others(TURNS * k)(docs);
    var current := others(TURNS * k + 1)(second);
    var a := prepare(docs, second, k);
    var (outcome, after) := write(current, a);
    AttemptsStep(docs, others, prepare, write, k, second, a, outcome, after);
    if outcome != Written && k + 1 < MAX_WRITE_ATTEMPTS {
      var next := others(TURNS * k + 2)(current);
      OneChangeAtMost(next, others, prepare, write, k + 1);
      EndsRightAfter(docs, others, prepare, write, k, next, Attempts(next, others, prepare, write, k + 1));
    } else {
      EndsRightNow(docs, others, prepare, write, k, Ended(a, outcome, k + 1, after));
    }
  }

  /** Attempt `j` of a call that began on `docs` with attempt `k` finds that its document moved. */
  ghost predicate Loses<A>(docs: Collection, others: Others, prepare: (Collection, Collection, nat) -> A,
                           write: (Collection, A) -> (WriteOutcome, Collection), k: nat, j: nat)
    requires k <= j
  {
    var first, second := Disturbed(docs, others, 3 * k, 3 * j), Disturbed(docs, others, 3 * k, 3 * j + 1);
    write(Disturbed(docs, others, 3 * k, 3 * j + 2), prepare(first, second, j)).0 != Written
  }

  lemma LosesLater<A>(docs: Collection, others: Others, prepare: (Collection, Collection, nat) -> A,
                      write: (Collection, A) -> (WriteOutcome, Collection), k: nat, j: nat)
    requires k < j && Loses(Disturbed(docs, others, 3 * k, 3 * k + 3), others, prepare, write, k + 1, j)
    ensures Loses(docs, others, prepare, write, k, j)
  {
    DisturbedTwice(docs, others, 3 * k, 3 * k + 3, 3 * j);
    DisturbedTwice(docs, others, 3 * k, 3 * k + 3, 3 * j + 1);
    DisturbedTwice(docs, others, 3 * k, 3 * k + 3, 3 * j + 2);
  }

  /** A call starts over only after an attempt that lost: every attempt before its last one did.
      One that gives up has lost three times. */
  lemma {:induction false} EarlierAttemptsLost<A(!new)>(docs: Collection, others: Others,
                                                        prepare: (Collection, Collection, nat) -> A,
                                                        write: (Collection, A) -> (WriteOutcome, Collection), k: nat, j: nat)
    requires k < 3 && AllOrNothing(write)
    ensures var ended := Attempts(docs, others, prepare, write, k);
            && k < ended.tries <= 3
            && (k <= j < ended.tries - 1 ==> Loses(docs, others, prepare, write, k, j))
            && (ended.outcome != Written ==> ended.tries == 3)
    decreases 3 - k
  {
    DisturbedThrice(docs, others, 3 * k);
    var second := others(3 * k)(docs);
    var current := others(3 * k + 1)(second);
    var a := prepare(docs, second, k);
    var (outcome, after) := write(current, a);
    AttemptsStep(docs, others, prepare, write, k, second, a, outcome, after);
    if outcome != Written && k + 1 < 3 {
      var next := others(3 * k + 2)(current);
      EarlierAttemptsLost(next, others, prepare, write, k + 1, j);
      if k < j < Attempts(next, others, prepare, write, k + 1).tries - 1 { LosesLater(docs, others, prepare, write, k, j); }
    }
  }
}
