/** A bounded number of iDRAC resets, shared by five workers. */
module ResetWorker {

  const RESET_CONCURRENCY := 5

  datatype Counts = Counts(
    max: nat,
    // `_left`: an int that the code only ever compares with zero.
    left: int,
    queue: seq<string>,
    // Servers whose reset a worker is waiting for; each holds a slot.
    busy: map<nat, string>,
    ended: set<nat>,
    // Every server taken off the queue, in order, and those whose reset was asked for.
    taken: seq<string>,
    asked: seq<string>,
    granted: nat,
    // Slots of resets whose worker was cancelled, or died, before an answer.
    lost: nat)

  /** What can happen between two points where the event loop may switch. */
  datatype Event =
    | Offer(server: string, triggered: bool)
    | Take(worker: nat)
    | Answer(worker: nat, reset: bool)
    | Die(worker: nat)

  // A run with no reset to hand out starts no worker; here its workers never find one to do.
  function Start(max: nat): Counts {
    Counts(max, max, [], map[], {}, [], [], 0, 0)
  }

  predicate Possible(c: Counts, event: Event) {
    match event
    case Offer(_, _) => true
    case Take(w) => w < RESET_CONCURRENCY && w !in c.busy && w !in c.ended && c.queue != []
    case Answer(w, _) => w in c.busy
    case Die(w) => w < RESET_CONCURRENCY && w !in c.ended
  }

  function Next(c: Counts, event: Event): Counts
    requires Possible(c, event)
  {
    match event
    case Offer(server, triggered) =>
      if c.max > 0 && c.left > 0 && triggered then c.(queue := c.queue + [server]) else c
    case Take(w) =>
      var server := c.queue[0];
      var rest := c.(queue := c.queue[1..], taken := c.taken + [server]);
      if c.left > 0 then rest.(left := c.left - 1, busy := c.busy[w := server], asked := c.asked + [server]) else rest
    case Answer(w, reset) =>
      var rest := c.(busy := c.busy - {w});
      if reset then rest.(granted := c.granted + 1) else rest.(left := c.left + 1)
    case Die(w) =>
      var rest := c.(ended := c.ended + {w});
      if w in c.busy then rest.(busy := c.busy - {w}, lost := c.lost + 1) else rest
  }

  ghost predicate Schedule(max: nat, events: seq<Event>)
    decreases |events|, 0
  {
    events == []
    || (Schedule(max, events[..|events| - 1]) && Possible(After(max, events[..|events| - 1]), events[|events| - 1]))
  }

  ghost function After(max: nat, events: seq<Event>): Counts
    requires Schedule(max, events)
    decreases |events|, 1
  {
    if events == [] then Start(max) else Next(After(max, events[..|events| - 1]), events[|events| - 1])
  }

  /** The servers that passed the door: offered with a reason while a slot was free. */
  ghost function Admitted(max: nat, events: seq<Event>): seq<string>
    requires Schedule(max, events)
    decreases |events|
  {
    if events == [] then []
    else
      var before, event := events[..|events| - 1], events[|events| - 1];
      var was := After(max, before);
      Admitted(max, before) +
      if event.Offer? && event.triggered && was.left > 0 then [event.server] else []
  }

  ghost predicate Conserved(c: Counts) {
    && c.left >= 0
    && c.left + |c.busy| + c.granted + c.lost == c.max
    && |c.asked| <= |c.taken|
    && c.granted + |c.busy| + c.lost <= |c.asked|
    && c.busy.Keys !! c.ended
  }

  lemma Freed(busy: map<nat, string>, w: nat)
    requires w in busy
    ensures |busy - {w}| == |busy| - 1
  {
    assert busy.Keys == (busy - {w}).Keys + {w};
    SizeIsKeys(busy);
    SizeIsKeys(busy - {w});
  }

  lemma SizeIsKeys(busy: map<nat, string>)
    ensures |busy| == |busy.Keys|
  {
  }

  lemma TakeConserves(c: Counts, w: nat)
    requires Conserved(c) && Possible(c, Take(w))
    ensures Conserved(Next(c, Take(w)))
  {
    if c.left > 0 {
      assert c.busy[w := c.queue[0]].Keys == c.busy.Keys + {w};
      SizeIsKeys(c.busy);
      SizeIsKeys(c.busy[w := c.queue[0]]);
    }
  }

  lemma AnswerConserves(c: Counts, w: nat, reset: bool)
    requires Conserved(c) && Possible(c, Answer(w, reset))
    ensures Conserved(Next(c, Answer(w, reset)))
  {
    Freed(c.busy, w);
  }

  lemma DeathConserves(c: Counts, w: nat)
    requires Conserved(c) && Possible(c, Die(w))
    ensures Conserved(Next(c, Die(w)))
  {
    if w in c.busy { Freed(c.busy, w); }
  }

  lemma StepConserves(c: Counts, event: Event)
    requires Conserved(c) && Possible(c, event)
    ensures Conserved(Next(c, event))
  {
    match event
    case Offer(_, _) =>
    case Take(w) => TakeConserves(c, w);
    case Answer(w, reset) => AnswerConserves(c, w, reset);
    case Die(w) => DeathConserves(c, w);
  }

  /** Over every interleaving: free slots, resets in flight, resets done and slots lost with
      their worker add up to the run's maximum, so no more than that many are ever granted. */
  lemma {:induction false} SlotsAreConserved(max: nat, events: seq<Event>)
    requires Schedule(max, events)
    ensures var c := After(max, events);
            && c.max == max && Conserved(c) && c.granted <= max && |c.busy| <= max
    decreases |events|
  {
    if events != [] {
      var before := events[..|events| - 1];
      SlotsAreConserved(max, before);
      StepConserves(After(max, before), events[|events| - 1]);
    }
  }

  /** Servers are taken off the queue in the order they were admitted, each once. */
  lemma {:induction false} TakenInOrder(max: nat, events: seq<Event>)
    requires Schedule(max, events)
    ensures Admitted(max, events) == After(max, events).taken + After(max, events).queue
    decreases |events|
  {
    if events != [] {
      var before := events[..|events| - 1];
      TakenInOrder(max, before);
      SlotsAreConserved(max, before);
      QueueMoves(After(max, before), events[|events| - 1]);
    }
  }

  lemma QueueMoves(c: Counts, event: Event)
    requires Possible(c, event) && Conserved(c)
    ensures var after := Next(c, event);
            after.taken + after.queue ==
            c.taken + c.queue + if event.Offer? && event.triggered && c.left > 0 then [event.server] else []
  {
    if event.Take? { assert c.queue == [c.queue[0]] + c.queue[1..]; }
  }

  /** A worker asks for the reset of every server it takes while a slot is free, and takes that
      slot; one it takes when none is left is dropped. A reset that was not needed gives its slot
      back, one that was done keeps it. */
  lemma SlotFollowsTheReset(c: Counts, w: nat, reset: bool)
    ensures Possible(c, Take(w)) ==>
              var after := Next(c, Take(w));
              && after.taken == c.taken + [c.queue[0]] && after.queue == c.queue[1..]
              && (c.left > 0 ==> after.asked == c.asked + [c.queue[0]] && after.left == c.left - 1
                                 && w in after.busy && after.busy[w] == c.queue[0])
              && (c.left <= 0 ==> after.asked == c.asked && after.left == c.left && after.busy == c.busy)
    ensures Possible(c, Answer(w, reset)) ==>
              var after := Next(c, Answer(w, reset));
              && w !in after.busy && after.asked == c.asked
              && after.left == c.left + (if reset then 0 else 1) && after.granted == c.granted + if reset then 1 else 0
  {
  }

  /** Five workers share the queue, each taking the next server whenever it has none. */
  lemma FiveWorkersShare(c: Counts, w: nat)
    ensures Possible(c, Take(w)) <==> w < 5 && w !in c.busy && w !in c.ended && c.queue != []
    ensures Possible(c, Answer(w, true)) <==> w in c.busy
  {
  }

  /** No server is asked about more often than it was taken off the queue. */
  lemma {:induction false} AskedAreTaken(max: nat, events: seq<Event>)
    requires Schedule(max, events)
    ensures multiset(After(max, events).asked) <= multiset(After(max, events).taken)
    decreases |events|
  {
    if events != [] { AskedAreTaken(max, events[..|events| - 1]); }
  }

  /** When no worker died, every slot is free, in use, or spent on a reset that was done. */
  lemma {:induction false} NothingIsLost(max: nat, events: seq<Event>)
    requires Schedule(max, events) && forall k | 0 <= k < |events| :: !events[k].Die?
    ensures var c := After(max, events); c.left + |c.busy| + c.granted == max
    decreases |events|
  {
    SlotsAreConserved(max, events);
    NoDeathNoLoss(max, events);
  }

  lemma {:induction false} NoDeathNoLoss(max: nat, events: seq<Event>)
    requires Schedule(max, events) && forall k | 0 <= k < |events| :: !events[k].Die?
    ensures After(max, events).lost == 0
    decreases |events|
  {
    if events != [] {
      var n := |events| - 1;
      forall k | 0 <= k < n ensures !events[..n][k].Die? {
        assert events[..n][k] == events[k];
      }
      NoDeathNoLoss(max, events[..n]);
      assert !events[n].Die?;
    }
  }
}
