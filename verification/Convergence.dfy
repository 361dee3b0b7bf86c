/** A run that keeps reporting the same thing stops writing. */
module Convergence {
  import opened Documents
  import opened Claims

  /** The reports a run applies in order: unbound ones first, bound ones last, otherwise as found. */
  function Ordered(found: seq<Report>): (ordered: seq<Report>)
    ensures |ordered| == |found|
  {
    KeepCounts(found);
    Keep(found, false) + Keep(found, true)
  }

  function Keep(found: seq<Report>, bound: bool): seq<Report> {
    if found == [] then []
    else
      var last := found[|found| - 1];
      Keep(found[..|found| - 1], bound) + (if (last.observation.state == Installed) == bound then [last] else [])
  }

  lemma {:induction false} KeepCounts(found: seq<Report>)
    ensures |Keep(found, false)| + |Keep(found, true)| == |found|
  {
    if found != [] { KeepCounts(found[..|found| - 1]); }
  }

  /** One run's reports, each stamped with the moment it was worked out. */
  function Timed(reports: seq<Report>, times: seq<Instant>): seq<Report>
    requires |times| == |reports|
  {
    seq(|reports|, i requires 0 <= i < |reports| => reports[i].(at := times[i]))
  }

  /** What one run stores for the server. */
  function RunOnce(before: Lifecycle, found: seq<Report>, times: seq<Instant>): Lifecycle
    requires |times| == |found|
  {
    Stored(before, Chained(before, Timed(Ordered(found), times)))
  }

  predicate Writes(before: Lifecycle, found: seq<Report>, times: seq<Instant>)
    requires |times| == |found|
  {
    !SameMembership(before, Chained(before, Timed(Ordered(found), times)))
  }

  /** Repeated runs of one set of reports, each with the moments its reports were worked out. */
  predicate Runs(found: seq<Report>, runs: seq<seq<Instant>>) {
    forall i | 0 <= i < |runs| :: |runs[i]| == |found|
  }

  function AfterRuns(before: Lifecycle, found: seq<Report>, runs: seq<seq<Instant>>): Lifecycle
    requires Runs(found, runs)
    decreases |runs|
  {
    if runs == [] then before else AfterRuns(RunOnce(before, found, runs[0]), found, runs[1..])
  }

  function WriteCount(before: Lifecycle, found: seq<Report>, runs: seq<seq<Instant>>): nat
    requires Runs(found, runs)
    decreases |runs|
  {
    if runs == [] then 0
    else (if Writes(before, found, runs[0]) then 1 else 0) + WriteCount(RunOnce(before, found, runs[0]), found, runs[1..])
  }

  /** One job's Agents for one server: each claims it under a UID of its own. */
  ghost predicate Agents(found: seq<Report>, job: string, name: string) {
    && job != ""
    && (forall i | 0 <= i < |found| ::
          && found[i].reportedBy == job && found[i].serverName == name
          && found[i].observation.state != Available
          && Truthy(found[i].observation.agentUid))
    && (forall i, j | 0 <= i < j < |found| :: found[i].observation.agentUid != found[j].observation.agentUid)
  }

  lemma {:induction false} KeepIsWithin(found: seq<Report>, bound: bool)
    ensures forall i | 0 <= i < |Keep(found, bound)| ::
              Keep(found, bound)[i] in found && (Keep(found, bound)[i].observation.state == Installed) == bound
  {
    if found != [] { KeepIsWithin(found[..|found| - 1], bound); }
  }

  lemma {:induction false} KeptAgents(found: seq<Report>, bound: bool, job: string, name: string)
    requires Agents(found, job, name)
    ensures Agents(Keep(found, bound), job, name)
  {
    if found != [] {
      KeptAgents(found[..|found| - 1], bound, job, name);
      KeepIsWithin(found[..|found| - 1], bound);
    }
  }

  lemma OrderedAgents(found: seq<Report>, job: string, name: string)
    requires Agents(found, job, name)
    ensures Agents(Ordered(found), job, name)
  {
    KeptAgents(found, false, job, name);
    KeptAgents(found, true, job, name);
    KeepIsWithin(found, false);
    KeepIsWithin(found, true);
  }

  /** How often a report occurs. */
  function Times(reports: seq<Report>, r: Report): nat {
    if reports == [] then 0
    else Times(reports[..|reports| - 1], r) + if reports[|reports| - 1] == r then 1 else 0
  }

  lemma {:induction false} TimesJoin(a: seq<Report>, b: seq<Report>, r: Report)
    ensures Times(a + b, r) == Times(a, r) + Times(b, r)
    decreases |b|
  {
    if b == [] {
      assert a + b == a;
    } else {
      assert (a + b)[..|a + b| - 1] == a + b[..|b| - 1];
      TimesJoin(a, b[..|b| - 1], r);
    }
  }

  lemma KeepGrows(found: seq<Report>, bound: bool)
    requires found != []
    ensures var before, last := found[..|found| - 1], found[|found| - 1];
            Keep(found, bound) ==
            if (last.observation.state == Installed) == bound then Keep(before, bound) + [last] else Keep(before, bound)
  {
  }

  lemma TimesGrow(reports: seq<Report>, last: Report, r: Report)
    ensures Times(reports + [last], r) == Times(reports, r) + if last == r then 1 else 0
  {
    assert (reports + [last])[..|reports|] == reports;
  }

  lemma {:induction false} KeepCountsEach(found: seq<Report>, r: Report)
    ensures Times(Keep(found, false), r) + Times(Keep(found, true), r) == Times(found, r)
  {
    if found != [] {
      var before, last := found[..|found| - 1], found[|found| - 1];
      KeepCountsEach(before, r);
      KeepGrows(found, false);
      KeepGrows(found, true);
      TimesGrow(Keep(before, last.observation.state == Installed), last, r);
    }
  }

  /** A run applies every report as often as it was seen, none that is bound before one that is not. */
  lemma OrderedAppliesAll(found: seq<Report>)
    ensures forall r :: Times(Ordered(found), r) == Times(found, r)
    ensures forall i, j | 0 <= i < j < |Ordered(found)| && Ordered(found)[i].observation.state == Installed ::
              Ordered(found)[j].observation.state == Installed
  {
    forall r ensures Times(Ordered(found), r) == Times(found, r) {
      KeepCountsEach(found, r);
      TimesJoin(Keep(found, false), Keep(found, true), r);
    }
    KeepIsWithin(found, false);
    KeepIsWithin(found, true);
  }

  /** Reports alike in being bound stay in the order they were seen. */
  lemma {:induction false} KeepsOrder(found: seq<Report>, more: seq<Report>, bound: bool)
    ensures Keep(found + more, bound) == Keep(found, bound) + Keep(more, bound)
    decreases |more|
  {
    if more == [] {
      assert found + more == found;
    } else {
      var n := |more| - 1;
      assert (found + more)[..|found| + n] == found + more[..n];
      KeepsOrder(found, more[..n], bound);
    }
  }

  /** A run that holds any bound report applies one of them at the end. */
  lemma LastIsBoundIfAny(found: seq<Report>)
    requires found != []
    ensures (Ordered(found)[|found| - 1].observation.state == Installed) <==>
            exists r :: r in found && r.observation.state == Installed
  {
    KeepIsWithin(found, false);
    KeepIsWithin(found, true);
    forall r | r in found && r.observation.state == Installed ensures Keep(found, true) != [] {
      KeepsBound(found, r);
    }
  }

  lemma {:induction false} KeepsBound(found: seq<Report>, r: Report)
    requires r in found && r.observation.state == Installed
    ensures r in Keep(found, true)
  {
    if found[|found| - 1] != r { KeepsBound(found[..|found| - 1], r); }
  }

  /** A server as the last Agent of a run leaves it. */
  ghost predicate HeldBy(stored: Lifecycle, last: Report) {
    && stored.state == last.observation.state
    && stored.clusterName == last.observation.clusterName
    && stored.mceName == last.observation.mceName
    && stored.reportedBy == Some(last.reportedBy)
    && stored.reportedName == last.reportedName
    && stored.agentUid == last.observation.agentUid
    && (stored.contestedWith.None? ==> stored.contestedName.None?)
    && (Truthy(stored.contestedWith) ==> Truthy(stored.contestedName) || stored.contestedName == Some(last.serverName))
  }

  ghost predicate Agent(r: Report) {
    r.reportedBy != "" && r.observation.state != Available && Truthy(r.observation.agentUid)
  }

  lemma NextIsHeld(before: Lifecycle, r: Report)
    requires Agent(r)
    ensures HeldBy(Next(before, r), r)
  {
  }

  lemma KeyIsTruthy(reporter: string, cluster: Option<string>)
    requires reporter != ""
    ensures ClaimKey(reporter, cluster) != ""
  {
  }

  /** One Agent taking a server over from another. */
  lemma AgentTakesOver(stored: Lifecycle, a: Report, b: Report)
    requires Agent(a) && Agent(b) && HeldBy(stored, a) && a.observation.agentUid != b.observation.agentUid
    ensures var after := Next(stored, b);
            && after.previousReporter == Some(ClaimKey(a.reportedBy, a.observation.clusterName))
            && after.previousAgentUid == a.observation.agentUid
            && after.claimChangedAt == Some(b.at)
            && (Truthy(stored.previousAgentUid) ==>
                  after.contestedWith ==
                  if stored.previousAgentUid == b.observation.agentUid && Recent(stored.claimChangedAt, b.at)
                  then after.previousReporter else None)
            && (after.contestedWith == after.previousReporter ==>
                  after.contestedName == if Truthy(a.reportedName) then a.reportedName else Some(b.serverName))
  {
    KeyIsTruthy(a.reportedBy, a.observation.clusterName);
  }

  /** The same Agent reporting again: its past is kept, an old contest is dropped. */
  lemma AgentStays(stored: Lifecycle, a: Report, b: Report)
    requires Agent(a) && Agent(b) && HeldBy(stored, a) && b == a.(at := b.at)
    ensures var after := Next(stored, b);
            SameMembership(stored, after) || (SameMembership(stored.(contestedWith := None, contestedName := None), after))
  {
  }

  /** A chain of at least two Agents ends with the last one having displaced the one before it. */
  lemma ChainEndsWithTakeover(before: Lifecycle, run: seq<Report>, job: string, name: string)
    requires Agents(run, job, name) && |run| >= 2
    ensures var k := |run|;
            var inner := Chained(before, run[..k - 1]);
            && HeldBy(inner, run[k - 2])
            && Chained(before, run) == Next(inner, run[k - 1])
            && Agent(run[k - 2]) && Agent(run[k - 1])
            && run[k - 2].observation.agentUid != run[k - 1].observation.agentUid
  {
    var k := |run|;
    assert run[..k - 1][..k - 2] == run[..k - 2];
    NextIsHeld(Chained(before, run[..k - 2]), run[k - 2]);
  }

  /** Three or more Agents: every run ends in the same membership, whatever was stored. */
  lemma ManyAgentsOutcome(before: Lifecycle, run: seq<Report>, job: string, name: string)
    requires Agents(run, job, name) && |run| >= 3
    ensures var k := |run|;
            var after := Chained(before, run);
            && HeldBy(after, run[k - 1])
            && after.previousReporter == Some(ClaimKey(job, run[k - 2].observation.clusterName))
            && after.previousAgentUid == run[k - 2].observation.agentUid
            && after.contestedWith.None?
  {
    var k := |run|;
    ChainEndsWithTakeover(before, run, job, name);
    assert Agents(run[..k - 1], job, name);
    ChainEndsWithTakeover(before, run[..k - 1], job, name);
    assert run[..k - 1][..k - 2] == run[..k - 2];
    AgentTakesOver(Chained(before, run[..k - 2]), run[k - 3], run[k - 2]);
    AgentTakesOver(Chained(before, run[..k - 1]), run[k - 2], run[k - 1]);
    NextIsHeld(Chained(before, run[..k - 1]), run[k - 1]);
  }

  /** One or several Agents, but not two: what every run of them leaves. */
  ghost predicate Adopted(stored: Lifecycle, run: seq<Report>)
    requires run != []
  {
    && HeldBy(stored, run[|run| - 1])
    && (|run| >= 3 ==>
          && stored.previousReporter == Some(ClaimKey(run[|run| - 2].reportedBy, run[|run| - 2].observation.clusterName))
          && stored.previousAgentUid == run[|run| - 2].observation.agentUid
          && stored.contestedWith.None?)
  }

  /** Whether no further run of these Agents will change a stored membership. */
  ghost predicate Settled(stored: Lifecycle, run: seq<Report>)
    requires run != []
  {
    Adopted(stored, run) && (|run| == 1 ==> stored.contestedWith.None?)
  }

  lemma WrittenIsAdopted(before: Lifecycle, run: seq<Report>, job: string, name: string)
    requires Agents(run, job, name) && run != [] && |run| != 2
    ensures Adopted(Chained(before, run), run)
  {
    if |run| == 1 {
      assert Chained(before, run) == Next(before, run[0]) by { assert run[..0] == []; }
      NextIsHeld(before, run[0]);
    } else {
      ManyAgentsOutcome(before, run, job, name);
    }
  }

  /** From an adopted membership a run either changes nothing or settles it. */
  lemma AdoptedSettles(stored: Lifecycle, run: seq<Report>, job: string, name: string)
    requires Agents(run, job, name) && run != [] && |run| != 2 && Adopted(stored, run)
    ensures SameMembership(stored, Chained(stored, run)) || Settled(Chained(stored, run), run)
    ensures Settled(stored, run) ==> SameMembership(stored, Chained(stored, run))
  {
    WrittenIsAdopted(stored, run, job, name);
    if |run| == 1 {
      assert Chained(stored, run) == Next(stored, run[0]) by { assert run[..0] == []; }
      AgentStays(stored, run[0], run[0]);
    }
  }

  /** How much more a stored membership can still be rewritten. */
  ghost function Budget(stored: Lifecycle, found: seq<Report>): nat
    requires found != []
  {
    if Settled(stored, Ordered(found)) then 0 else if Adopted(stored, Ordered(found)) then 1 else 2
  }

  lemma OneRunSpendsBudget(before: Lifecycle, found: seq<Report>, times: seq<Instant>, job: string, name: string)
    requires found != [] && |found| != 2 && Agents(found, job, name) && |times| == |found|
    ensures (if Writes(before, found, times) then 1 else 0) + Budget(RunOnce(before, found, times), found) <= Budget(before, found)
  {
    var ordered := Ordered(found);
    var run := Timed(ordered, times);
    OrderedAgents(found, job, name);
    assert Agents(run, job, name);
    assert forall stored :: Adopted(stored, run) == Adopted(stored, ordered) && Settled(stored, run) == Settled(stored, ordered);
    WrittenIsAdopted(before, run, job, name);
    if Adopted(before, run) { AdoptedSettles(before, run, job, name); }
  }

  /** Repeating a run that sees a server through one Agent, or through three and more, writes it
      at most twice in all, whatever was stored before, however many times the run repeats and
      whatever time passes between runs or within one. */
  lemma {:induction false} RepeatedRunsWriteTwice(before: Lifecycle, found: seq<Report>, runs: seq<seq<Instant>>,
                                                  job: string, name: string)
    requires found != [] && |found| != 2 && Agents(found, job, name) && Runs(found, runs)
    ensures WriteCount(before, found, runs) <= Budget(before, found) <= 2
    decreases |runs|
  {
    if runs != [] {
      OneRunSpendsBudget(before, found, runs[0], job, name);
      RepeatedRunsWriteTwice(RunOnce(before, found, runs[0]), found, runs[1..], job, name);
    }
  }

  // Two Agents on one server: each run they take it from each other.

  /** Whether the second report of a run follows the first within the contest window. */
  predicate Brisk(times: seq<Instant>)
    requires |times| == 2
  {
    times[1] - times[0] < CONTEST_WINDOW
  }

  /** The membership a run of two Agents leaves, in everything a write compares. */
  predicate Fought(stored: Lifecycle, a: Report, b: Report, flagged: bool) {
    && stored.state == b.observation.state
    && stored.clusterName == b.observation.clusterName
    && stored.mceName == b.observation.mceName
    && stored.reportedName == b.reportedName
    && stored.agentUid == b.observation.agentUid
    && stored.previousReporter == Some(ClaimKey(a.reportedBy, a.observation.clusterName))
    && stored.previousAgentUid == a.observation.agentUid
    && stored.contestedWith == (if flagged then stored.previousReporter else None)
    && stored.contestedName == (if !flagged then None else if Truthy(a.reportedName) then a.reportedName else Some(b.serverName))
  }

  /** How often the pace of consecutive runs differs, the one before the first being `flagged`. */
  function Turns(flagged: bool, runs: seq<seq<Instant>>): nat
    requires forall i | 0 <= i < |runs| :: |runs[i]| == 2
    decreases |runs|
  {
    if runs == [] then 0 else (if Brisk(runs[0]) == flagged then 0 else 1) + Turns(Brisk(runs[0]), runs[1..])
  }

  lemma TwoInTurn(before: Lifecycle, run: seq<Report>)
    requires |run| == 2
    ensures Chained(before, run) == Next(Next(before, run[0]), run[1])
  {
    assert run[..1][..0] == [] && run[..1][0] == run[0];
    assert Chained(before, run[..1]) == Next(before, run[0]);
  }

  /** The second Agent of a run always ends up having displaced the first. */
  lemma TwoAgentsOutcome(before: Lifecycle, run: seq<Report>, job: string, name: string)
    requires Agents(run, job, name) && |run| == 2
    ensures var after := Chained(before, run);
            && Fought(after, run[0], run[1], after.contestedWith.Some?)
            && after.reportedBy == Some(job) && Agent(run[1])
  {
    TwoInTurn(before, run);
    NextIsHeld(before, run[0]);
    AgentTakesOver(Next(before, run[0]), run[0], run[1]);
    TakeoverFlag(Next(before, run[0]), run[0], run[1]);
  }

  lemma TakeoverFlag(stored: Lifecycle, a: Report, b: Report)
    requires Agent(a) && Agent(b) && HeldBy(stored, a) && a.observation.agentUid != b.observation.agentUid
    ensures var after := Next(stored, b);
            (after.contestedWith.None? && after.contestedName.None?) || after.contestedWith == after.previousReporter
  {
    KeyIsTruthy(a.reportedBy, a.observation.clusterName);
  }

  /** Two Agents on a server the second one holds: a run flags the first one's claim exactly when
      its two reports are less than an hour apart, whatever happened before. */
  lemma TwoAgentsFight(before: Lifecycle, run: seq<Report>, job: string, name: string)
    requires Agents(run, job, name) && |run| == 2
    requires before.state != Available && Truthy(before.reportedBy) && before.agentUid == run[1].observation.agentUid
    ensures Fought(Chained(before, run), run[0], run[1], run[1].at - run[0].at < CONTEST_WINDOW)
  {
    TwoAgentsOutcome(before, run, job, name);
    TwoInTurn(before, run);
    var taken := Next(before, run[0]);
    NextIsHeld(before, run[0]);
    assert taken.previousAgentUid == run[1].observation.agentUid && taken.claimChangedAt == Some(run[0].at);
    AgentTakesOver(taken, run[0], run[1]);
  }

  /** A stored membership that names no reporter starts no history, so nobody comes back to it. */
  lemma NamelessIsNeverFlagged(before: Lifecycle, run: seq<Report>, job: string, name: string)
    requires Agents(run, job, name) && |run| == 2 && !Truthy(before.reportedBy)
    ensures Fought(Chained(before, run), run[0], run[1], false)
  {
    TwoAgentsOutcome(before, run, job, name);
    TwoInTurn(before, run);
  }

  lemma FoughtAgain(x: Lifecycle, y: Lifecycle, a: Report, b: Report, f: bool, g: bool)
    requires Fought(x, a, b, f)
    ensures Fought(y, a, b, g) ==> (SameMembership(x, y) <==> f == g)
    ensures SameMembership(x, y) ==> Fought(y, a, b, f)
  {
  }

  lemma TwoTimed(found: seq<Report>, times: seq<Instant>, job: string, name: string)
    requires |found| == |times| == 2 && Agents(found, job, name)
    ensures var ordered, run := Ordered(found), Timed(Ordered(found), times);
            && Agents(ordered, job, name) && Agents(run, job, name) && |run| == 2
            && run[0] == ordered[0].(at := times[0]) && run[1] == ordered[1].(at := times[1])
  {
    OrderedAgents(found, job, name);
  }

  /** Once two Agents fight over a server, it is written exactly when the pace of the runs
      changes: from a run whose reports were within the hour to one whose were not, or back. */
  lemma {:induction false} FightWritesOnTurns(stored: Lifecycle, found: seq<Report>, runs: seq<seq<Instant>>, flagged: bool,
                                              job: string, name: string)
    requires |found| == 2 && Agents(found, job, name) && Runs(found, runs)
    requires Truthy(stored.reportedBy) && Fought(stored, Ordered(found)[0], Ordered(found)[1], flagged)
    ensures WriteCount(stored, found, runs) == Turns(flagged, runs)
    decreases |runs|
  {
    if runs != [] {
      var times, ordered := runs[0], Ordered(found);
      TwoTimed(found, times, job, name);
      var run := Timed(ordered, times);
      TwoAgentsFight(stored, run, job, name);
      TwoAgentsOutcome(stored, run, job, name);
      var after := Chained(stored, run);
      FoughtAgain(stored, after, ordered[0], ordered[1], flagged, Brisk(times));
      FightWritesOnTurns(RunOnce(stored, found, times), found, runs[1..], Brisk(times), job, name);
    }
  }

  lemma {:induction false} NamelessStays(stored: Lifecycle, found: seq<Report>, runs: seq<seq<Instant>>, job: string, name: string)
    requires |found| == 2 && Agents(found, job, name) && Runs(found, runs)
    requires !Truthy(stored.reportedBy) && Fought(stored, Ordered(found)[0], Ordered(found)[1], false)
    ensures WriteCount(stored, found, runs) == 0
    decreases |runs|
  {
    if runs != [] {
      var times, ordered := runs[0], Ordered(found);
      TwoTimed(found, times, job, name);
      NamelessIsNeverFlagged(stored, Timed(ordered, times), job, name);
      FoughtAgain(stored, Chained(stored, Timed(ordered, times)), ordered[0], ordered[1], false, false);
      NamelessStays(stored, found, runs[1..], job, name);
    }
  }

  /** The exact number of writes two Agents cause, from any stored membership: the first run's,
      if it writes, and one for every change of pace after it. Only a membership that names no
      reporter, and that the first run leaves alone, is never written. */
  lemma TwoAgentsWriteExactly(before: Lifecycle, found: seq<Report>, runs: seq<seq<Instant>>, job: string, name: string)
    requires |found| == 2 && Agents(found, job, name) && runs != [] && Runs(found, runs)
    ensures var first := Chained(before, Timed(Ordered(found), runs[0]));
            WriteCount(before, found, runs) ==
            if Writes(before, found, runs[0]) then 1 + Turns(first.contestedWith.Some?, runs[1..])
            else if Truthy(before.reportedBy) then Turns(first.contestedWith.Some?, runs[1..])
            else 0
  {
    var times, ordered := runs[0], Ordered(found);
    TwoTimed(found, times, job, name);
    var run := Timed(ordered, times);
    var first := Chained(before, run);
    TwoAgentsOutcome(before, run, job, name);
    var flagged := first.contestedWith.Some?;
    if Writes(before, found, times) {
      FightWritesOnTurns(first, found, runs[1..], flagged, job, name);
    } else {
      FoughtAgain(first, before, ordered[0], ordered[1], flagged, flagged);
      if Truthy(before.reportedBy) {
        FightWritesOnTurns(before, found, runs[1..], flagged, job, name);
      } else {
        NamelessIsNeverFlagged(before, run, job, name);
        NamelessStays(before, found, runs[1..], job, name);
      }
    }
  }

  /** No brisk run is followed by one that pauses. */
  predicate NeverSlowsDown(runs: seq<seq<Instant>>)
    requires forall i | 0 <= i < |runs| :: |runs[i]| == 2
  {
    forall i, j | 0 <= i < j < |runs| :: Brisk(runs[i]) ==> Brisk(runs[j])
  }

  lemma {:induction false} TurnsWhenBrisk(runs: seq<seq<Instant>>)
    requires forall i | 0 <= i < |runs| :: |runs[i]| == 2
    ensures Turns(true, runs) == 0 <==> forall i | 0 <= i < |runs| :: Brisk(runs[i])
  {
    if runs != [] {
      TurnsWhenBrisk(runs[1..]);
      if Brisk(runs[0]) {
        assert forall i | 1 <= i < |runs| :: runs[i] == runs[1..][i - 1];
      }
    }
  }

  lemma {:induction false} TurnsAtMostOnce(runs: seq<seq<Instant>>)
    requires forall i | 0 <= i < |runs| :: |runs[i]| == 2
    ensures Turns(false, runs) <= 1 <==> NeverSlowsDown(runs)
  {
    if runs != [] {
      var rest := runs[1..];
      assert forall i | 1 <= i < |runs| :: runs[i] == rest[i - 1];
      TurnsWhenBrisk(rest);
      TurnsAtMostOnce(rest);
      if Brisk(runs[0]) && NeverSlowsDown(runs) {
        assert forall i | 0 <= i < |rest| :: rest[i] == runs[i + 1] && Brisk(runs[i + 1]);
      }
      if !Brisk(runs[0]) && NeverSlowsDown(runs) {
        assert forall i | 0 <= i < |rest| :: rest[i] == runs[i + 1];
      }
    }
  }

  /** A server two Agents find unclaimed is written at most twice if and only if, after the first
      run, no run whose reports are within the hour is followed by one whose are not. */
  lemma TwoWritesExactlyWhen(found: seq<Report>, runs: seq<seq<Instant>>, job: string, name: string)
    requires |found| == 2 && Agents(found, job, name) && runs != [] && Runs(found, runs)
    ensures WriteCount(UNCLAIMED, found, runs) <= 2 <==> NeverSlowsDown(runs[1..])
  {
    FirstSeenCount(found, runs, job, name);
    TurnsAtMostOnce(runs[1..]);
  }

  /** While no run pauses, two Agents too cause at most two writes, from any stored membership. */
  lemma BriskRunsWriteTwice(before: Lifecycle, found: seq<Report>, runs: seq<seq<Instant>>, job: string, name: string)
    requires |found| == 2 && Agents(found, job, name) && Runs(found, runs)
    requires forall i | 0 <= i < |runs| :: Brisk(runs[i])
    ensures WriteCount(before, found, runs) <= 2
  {
    if runs != [] {
      TwoAgentsWriteExactly(before, found, runs, job, name);
      assert forall i | 0 <= i < |runs[1..]| :: runs[1..][i] == runs[i + 1];
      TurnsWhenBrisk(runs[1..]);
      TurnsAtMostOnce(runs[1..]);
    }
  }

  /** After at least one run the server is stored as installed exactly when some report of it
      was bound to a cluster. */
  lemma {:induction false} BoundMeansInstalled(before: Lifecycle, found: seq<Report>, runs: seq<seq<Instant>>)
    requires found != [] && runs != [] && Runs(found, runs)
    ensures AfterRuns(before, found, runs).state == Installed <==>
            exists r :: r in found && r.observation.state == Installed
    decreases |runs|
  {
    if |runs| == 1 {
      var run := Timed(Ordered(found), runs[0]);
      LastIsBoundIfAny(found);
      assert runs[1..] == [];
      assert RunOnce(before, found, runs[0]).state == run[|run| - 1].observation.state;
    } else {
      BoundMeansInstalled(RunOnce(before, found, runs[0]), found, runs[1..]);
    }
  }

  lemma FirstSeenCount(found: seq<Report>, runs: seq<seq<Instant>>, job: string, name: string)
    requires |found| == 2 && Agents(found, job, name) && runs != [] && Runs(found, runs)
    ensures WriteCount(UNCLAIMED, found, runs) == 1 + Turns(false, runs[1..])
  {
    TwoTimed(found, runs[0], job, name);
    var run := Timed(Ordered(found), runs[0]);
    TwoAgentsOutcome(UNCLAIMED, run, job, name);
    NamelessIsNeverFlagged(UNCLAIMED, run, job, name);
    TwoAgentsWriteExactly(UNCLAIMED, found, runs, job, name);
  }

  lemma FourRuns(found: seq<Report>, a: seq<Instant>, b: seq<Instant>, c: seq<Instant>, d: seq<Instant>,
                 job: string, name: string)
    requires |found| == 2 && Agents(found, job, name) && |a| == |b| == |c| == |d| == 2
    ensures WriteCount(UNCLAIMED, found, [a, b, c, d]) ==
            1 + (if Brisk(b) then 1 else 0) + (if Brisk(c) == Brisk(b) then 0 else 1) + (if Brisk(d) == Brisk(c) then 0 else 1)
  {
    FirstSeenCount(found, [a, b, c, d], job, name);
    assert [a, b, c, d][1..] == [b, c, d] && [b, c, d][1..] == [c, d] && [c, d][1..] == [d] && [d][1..] == [];
    assert Turns(Brisk(c), [d]) == if Brisk(d) == Brisk(c) then 0 else 1;
  }

  /** Witnesses on both sides: of four runs of any two Agents, one that pauses between brisk ones
      costs two more writes, while four that all pause write once. */
  lemma PaceDecidesTheWrites(found: seq<Report>, job: string, name: string)
    requires |found| == 2 && Agents(found, job, name)
    ensures WriteCount(UNCLAIMED, found, [[0, 0], [10000, 13599], [20000, 23600], [30000, 33599]]) == 4
    ensures WriteCount(UNCLAIMED, found, [[0, 3600], [10000, 13600], [20000, 23600], [30000, 33600]]) == 1
  {
    FourRuns(found, [0, 0], [10000, 13599], [20000, 23600], [30000, 33599], job, name);
    FourRuns(found, [0, 3600], [10000, 13600], [20000, 23600], [30000, 33600], job, name);
  }
}
