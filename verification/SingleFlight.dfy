/** Sharing one computation among the concurrent callers that ask for it under one key. */
module SingleFlight {

  type Key = string

  datatype Outcome = Value(content: string) | Failure(error: string) | Cancelled

  /** A computation, owned by no caller. `hooked` until its clean-up callback has run. */
  datatype Task = Task(key: Key, outcome: Status, cancelling: bool, hooked: bool)

  datatype Status = Running | Finished(result: Outcome)

  datatype Caller = Waiting(task: nat) | Served(task: nat, answer: Outcome) | Gone(task: nat)

  datatype State = State(inflight: map<Key, nat>, tasks: map<nat, Task>, callers: map<nat, Caller>)

  /** What can happen between two points where the event loop may switch. An eager task
      finishes before the call that created it goes on. */
  datatype Event =
    | Call(caller: nat, key: Key, newTask: nat, eager: Status)
    | Complete(task: nat, result: Outcome)
    | Callback(task: nat)
    | Wake(caller: nat)
    | CancelCaller(caller: nat)
    | Drain

  const EMPTY := State(map[], map[], map[])

  predicate Possible(s: State, event: Event) {
    match event
    case Call(caller, _, task, _) => caller !in s.callers && task !in s.tasks
    case Complete(task, _) => task in s.tasks && s.tasks[task].outcome.Running?
    case Callback(task) => task in s.tasks && s.tasks[task].outcome.Finished? && s.tasks[task].hooked
    case Wake(caller) =>
      caller in s.callers && s.callers[caller].Waiting?
      && s.callers[caller].task in s.tasks && s.tasks[s.callers[caller].task].outcome.Finished?
    case CancelCaller(caller) => caller in s.callers && s.callers[caller].Waiting?
    case Drain => true
  }

  function Without(inflight: map<Key, nat>, key: Key, task: nat): map<Key, nat> {
    if key in inflight && inflight[key] == task then inflight - {key} else inflight
  }

  function Cancelling(tasks: map<nat, Task>, among: set<nat>): map<nat, Task> {
    map t | t in tasks :: if t in among && tasks[t].outcome.Running? then tasks[t].(cancelling := true) else tasks[t]
  }

  function Next(s: State, event: Event): State
    requires Possible(s, event)
  {
    match event
    case Call(caller, key, task, eager) =>
      if key in s.inflight then s.(callers := s.callers[caller := Waiting(s.inflight[key])])
      else State(s.inflight[key := task], s.tasks[task := Task(key, eager, false, true)], s.callers[caller := Waiting(task)])
    case Complete(task, result) => s.(tasks := s.tasks[task := s.tasks[task].(outcome := Finished(result))])
    case Callback(task) =>
      s.(inflight := Without(s.inflight, s.tasks[task].key, task), tasks := s.tasks[task := s.tasks[task].(hooked := false)])
    case Wake(caller) =>
      var task := s.callers[caller].task;
      s.(callers := s.callers[caller := Served(task, s.tasks[task].outcome.result)])
    case CancelCaller(caller) => s.(callers := s.callers[caller := Gone(s.callers[caller].task)])
    case Drain => s.(tasks := Cancelling(s.tasks, s.inflight.Values))
  }

  ghost predicate Schedule(events: seq<Event>)
    decreases |events|, 0
  {
    events == []
    || (Schedule(events[..|events| - 1]) && Possible(After(events[..|events| - 1]), events[|events| - 1]))
  }

  ghost function After(events: seq<Event>): State
    requires Schedule(events)
    decreases |events|, 1
  {
    if events == [] then EMPTY else Next(After(events[..|events| - 1]), events[|events| - 1])
  }

  /** A task is registered, under its own key, exactly while it runs or its clean-up is due. */
  ghost predicate Registered(s: State) {
    && (forall t | t in s.tasks ::
          s.tasks[t].hooked <==> s.tasks[t].key in s.inflight && s.inflight[s.tasks[t].key] == t)
    && (forall t | t in s.tasks :: s.tasks[t].outcome.Running? ==> s.tasks[t].hooked)
    && (forall key | key in s.inflight :: s.inflight[key] in s.tasks && s.tasks[s.inflight[key]].key == key)
  }

  /** A caller waits for a task there is, and whatever it was served is that task's outcome. */
  ghost predicate ServedTruly(s: State) {
    forall c | c in s.callers ::
      && s.callers[c].task in s.tasks
      && (s.callers[c].Served? ==> s.tasks[s.callers[c].task].outcome == Finished(s.callers[c].answer))
  }

  lemma StepKeepsRegistered(s: State, event: Event)
    requires Registered(s) && Possible(s, event)
    ensures Registered(Next(s, event))
  {
  }

  lemma StepServesTruly(s: State, event: Event)
    requires Registered(s) && ServedTruly(s) && Possible(s, event)
    ensures ServedTruly(Next(s, event))
  {
  }

  /** In every schedule, each unfinished task is registered under its key, so at most one runs
      per key, and everyone who was served got the one outcome of the task they joined. */
  lemma {:induction false} AtMostOneRunsPerKey(events: seq<Event>)
    requires Schedule(events)
    ensures var s := After(events);
            && Registered(s) && ServedTruly(s)
            && (forall t, u | t in s.tasks && u in s.tasks && t != u && s.tasks[t].key == s.tasks[u].key ::
                  !(s.tasks[t].outcome.Running? && s.tasks[u].outcome.Running?))
    decreases |events|
  {
    if events != [] {
      var before := events[..|events| - 1];
      AtMostOneRunsPerKey(before);
      StepKeepsRegistered(After(before), events[|events| - 1]);
      StepServesTruly(After(before), events[|events| - 1]);
    }
  }

  /** A call joins the task in flight for its key, starting none, or starts one and registers it. */
  lemma CallJoinsItsKey(s: State, caller: nat, key: Key, newTask: nat, eager: Status)
    requires Registered(s) && Possible(s, Call(caller, key, newTask, eager))
    ensures var after := Next(s, Call(caller, key, newTask, eager));
            && after.callers.Keys == s.callers.Keys + {caller} && after.callers[caller].Waiting?
            && after.tasks[after.callers[caller].task].key == key
            && (key in s.inflight ==> after.callers[caller].task == s.inflight[key] && after.tasks == s.tasks
                                      && after.inflight == s.inflight)
            && (key !in s.inflight ==> after.callers[caller].task == newTask && after.tasks.Keys == s.tasks.Keys + {newTask}
                                       && after.tasks[newTask].outcome == eager && after.inflight[key] == newTask)
  {
  }

  /** A task keeps its key, and a caller the task it joined. */
  lemma JoinedForGood(s: State, event: Event, caller: nat)
    requires Possible(s, event) && caller in s.callers && s.callers[caller].task in s.tasks
    ensures var after := Next(s, event);
            && caller in after.callers && after.callers[caller].task == s.callers[caller].task
            && after.callers[caller].task in after.tasks
            && after.tasks[after.callers[caller].task].key == s.tasks[s.callers[caller].task].key
  {
  }

  /** Whoever asked for a key waits for, and is served by, a computation of that key. */
  lemma {:induction false} EveryCallerGetsItsKey(events: seq<Event>, i: nat)
    requires Schedule(events) && i < |events| && events[i].Call?
    ensures var s := After(events);
            && events[i].caller in s.callers
            && s.callers[events[i].caller].task in s.tasks
            && s.tasks[s.callers[events[i].caller].task].key == events[i].key
    decreases |events|
  {
    var before, event := events[..|events| - 1], events[|events| - 1];
    AtMostOneRunsPerKey(before);
    if i == |events| - 1 {
      CallJoinsItsKey(After(before), event.caller, event.key, event.newTask, event.eager);
    } else {
      EveryCallerGetsItsKey(before, i);
      JoinedForGood(After(before), event, events[i].caller);
    }
  }

  /** A clean-up removes its own task's entry and no other; nothing else ever removes one. */
  lemma CleanUpIsExact(s: State, event: Event)
    requires Registered(s) && Possible(s, event)
    ensures var after := Next(s, event);
            (forall key | key in s.inflight ::
               (key !in after.inflight <==> event == Callback(s.inflight[key]))
               && (key in after.inflight ==> after.inflight[key] == s.inflight[key]))
  {
  }

  /** Giving up waiting alters no task, no entry and no other caller. */
  predicate SameButCallers(a: State, b: State, gone: set<nat>) {
    && a.inflight == b.inflight && a.tasks == b.tasks && a.callers.Keys == b.callers.Keys && gone <= a.callers.Keys
    && forall c | c in a.callers :: if c in gone then a.callers[c].Gone? else a.callers[c] == b.callers[c]
  }

  function WhoGaveUp(events: seq<Event>): set<nat> {
    if events == [] then {}
    else
      WhoGaveUp(events[..|events| - 1]) +
      if events[|events| - 1].CancelCaller? then {events[|events| - 1].caller} else {}
  }

  function Patient(events: seq<Event>): seq<Event> {
    if events == [] then []
    else
      Patient(events[..|events| - 1]) + if events[|events| - 1].CancelCaller? then [] else [events[|events| - 1]]
  }

  /** No caller's cancellation reaches a task or anyone else: leave every cancellation out of a
      schedule and it still runs, to the same tasks, the same table, and the same answer for
      every caller that did not give up. */
  lemma {:induction false} CancellationIsPrivate(events: seq<Event>)
    requires Schedule(events)
    ensures Schedule(Patient(events))
    ensures SameButCallers(After(events), After(Patient(events)), WhoGaveUp(events))
    decreases |events|
  {
    if events != [] {
      var before, event := events[..|events| - 1], events[|events| - 1];
      CancellationIsPrivate(before);
      var s, p := After(before), After(Patient(before));
      if event.CancelCaller? {
        assert Patient(events) == Patient(before);
      } else {
        PrivateStep(s, p, WhoGaveUp(before), event);
        assert Patient(events)[..|Patient(events)| - 1] == Patient(before);
      }
    }
  }

  lemma PrivateStep(s: State, p: State, gone: set<nat>, event: Event)
    requires SameButCallers(s, p, gone) && Possible(s, event) && !event.CancelCaller?
    ensures Possible(p, event) && SameButCallers(Next(s, event), Next(p, event), gone)
  {
  }

  /** Nothing but a call adds an entry or starts a task, and a task told to stop stays told. */
  ghost predicate WindsDown(s: State, drained: State) {
    && (forall key | key in s.inflight :: key in drained.inflight && s.inflight[key] == drained.inflight[key])
    && (forall t | t in s.tasks && s.tasks[t].outcome.Running? :: s.tasks[t].cancelling)
  }

  lemma DrainTellsEveryTask(s: State)
    requires Registered(s)
    ensures WindsDown(Next(s, Drain), s)
  {
    var after := Next(s, Drain);
    forall t | t in after.tasks && after.tasks[t].outcome.Running? ensures after.tasks[t].cancelling {
      assert s.inflight[s.tasks[t].key] == t;
    }
  }

  lemma WindingDownGoesOn(s: State, event: Event, drained: State)
    requires Possible(s, event) && !event.Call? && WindsDown(s, drained)
    ensures WindsDown(Next(s, event), drained)
  {
  }

  /** After a drain with no call following it, every task still running was told to stop and is
      one the drain awaits, the table only shrinks, and once the clean-ups of the drained tasks
      have run it is empty. */
  lemma {:induction false} DrainEmptiesTheTable(events: seq<Event>, n: nat)
    requires Schedule(events) && n < |events| && events[n].Drain?
    requires forall k | n < k < |events| :: !events[k].Call?
    ensures Schedule(events[..n])
    ensures var s, drained := After(events), After(events[..n]);
            && WindsDown(s, drained)
            && (forall t | t in s.tasks && s.tasks[t].outcome.Running? :: t in drained.inflight.Values)
            && ((forall t | t in drained.inflight.Values :: t in s.tasks && !s.tasks[t].hooked) ==> s.inflight == map[])
    decreases |events|
  {
    var last := |events| - 1;
    AtMostOneRunsPerKey(events);
    AtMostOneRunsPerKey(events[..last]);
    if n < last {
      assert events[..last][..n] == events[..n];
      forall k | n < k < last ensures !events[..last][k].Call? {
        assert events[..last][k] == events[k];
      }
      DrainEmptiesTheTable(events[..last], n);
      WindingDownGoesOn(After(events[..last]), events[last], After(events[..n]));
    } else {
      DrainTellsEveryTask(After(events[..n]));
    }
    StillWindsDown(After(events), After(events[..n]));
  }

  lemma StillWindsDown(s: State, drained: State)
    requires Registered(s) && WindsDown(s, drained)
    ensures forall t | t in s.tasks && s.tasks[t].outcome.Running? :: t in drained.inflight.Values
    ensures (forall t | t in drained.inflight.Values :: t in s.tasks && !s.tasks[t].hooked) ==> s.inflight == map[]
  {
    forall key | key in s.inflight
      ensures s.inflight[key] in drained.inflight.Values && s.tasks[s.inflight[key]].hooked
    {
      assert s.inflight[key] == drained.inflight[key];
    }
  }

  /** The process-wide table, with the tasks and callers it serves. */
  class Table {
    var inflight: map<Key, nat>
    var tasks: map<nat, Task>
    var callers: map<nat, Caller>

    constructor ()
      ensures Now() == EMPTY
    {
      inflight, tasks, callers := map[], map[], map[];
    }

    ghost function Now(): State
      reads this
    {
      State(inflight, tasks, callers)
    }

    /** Join the computation under way for a key, or start one. */
    method Coalesce(caller: nat, key: Key, newTask: nat, eager: Status)
      requires Possible(Now(), Call(caller, key, newTask, eager))
      modifies this
      ensures Now() == Next(old(Now()), Call(caller, key, newTask, eager))
    {
      var task := newTask;
      if key in inflight {
        task := inflight[key];
      } else {
        tasks := tasks[newTask := Task(key, eager, false, true)];
        inflight := inflight[key := newTask];
      }
      callers := callers[caller := Waiting(task)];
    }

    /** Remove a finished task's entry, if it is still this task's. */
    method CleanUp(task: nat)
      requires Possible(Now(), Callback(task))
      modifies this
      ensures Now() == Next(old(Now()), Callback(task))
    {
      var key := tasks[task].key;
      if key in inflight && inflight[key] == task {
        inflight := inflight - {key};
      }
      tasks := tasks[task := tasks[task].(hooked := false)];
    }

    /** Cancel every computation in flight. */
    method Drain()
      modifies this
      ensures Now() == Next(old(Now()), Event.Drain)
    {
      var left := inflight.Values;
      while left != {}
        invariant left <= inflight.Values && inflight == old(inflight) && callers == old(callers)
        invariant tasks == Cancelling(old(tasks), inflight.Values - left)
        decreases left
      {
        var task :| task in left;
        if task in tasks && tasks[task].outcome.Running? {
          tasks := tasks[task := tasks[task].(cancelling := true)];
        }
        left := left - {task};
      }
      assert inflight.Values - left == inflight.Values;
    }
  }
}
