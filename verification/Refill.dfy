/** Filling a request: random draws from one tier after another, each candidate rechecked. */
module Refill {
  import opened Documents
  import opened Availability
  import IngestLoop

  const MAX_ROUNDS_PER_TIER := 3

  /** What a candidate's manager says of it; what it reports of it is ingested at once. */
  datatype Report = NotAsked | NoLongerThere | ManagerFailed(why: string) | Reported(ingested: IngestLoop.Result)

  /** What a live recheck of one candidate comes to. An ingest that raises is nobody's failure to
      report: it leaves the lookup at once. */
  datatype Answer =
    | Fresh(server: Server, live: bool)
    | Gone
    | VendorFailure(reason: string)
    | IngestFailed(fault: IngestLoop.Result)

  datatype Try = Try(candidate: Server, answer: Answer, at: Instant)

  datatype Item = Item(server: Server, live: bool)

  datatype Draw = Draw(tried: nat, tier: HealthSeverity, size: nat, found: seq<Server>)

  datatype Outcome = Filled(items: seq<Item>) | Raised(reason: string) | Aborted(fault: IngestLoop.Result)

  /** The store's random draw, the managers' reports and the clock. A draw is told how many
      candidates were tried so far, at which tier, how many it may return and which to leave out;
      a report and an instant, which try it is. */
  datatype World = World(
    sample: (nat, HealthSeverity, nat, set<string>) -> seq<Server>,
    ask: (nat, Server) -> Report,
    now: nat -> Instant)

  /** A server with no manager to ask, or none configured, is trusted as it is stored. */
  function Recheck(candidate: Server, report: Report): Answer {
    match report
    case NotAsked => Fresh(candidate, false)
    case NoLongerThere => Gone
    case ManagerFailed(why) => VendorFailure(why)
    case Reported(Ingested(server, _)) => Fresh(server, true)
    case Reported(fault) => IngestFailed(fault)
  }

  ghost predicate DistinctIds(found: seq<Server>) {
    forall i, j | 0 <= i < j < |found| :: found[i].id != found[j].id
  }

  /** What the store promises of a draw. */
  ghost predicate Honest(world: World) {
    forall n, tier, size, excluded ::
      Sampled(world.sample(n, tier, size, excluded), tier, size, excluded)
  }

  ghost predicate Sampled(found: seq<Server>, tier: HealthSeverity, size: nat, excluded: set<string>) {
    && |found| <= size && DistinctIds(found)
    && forall s | s in found :: s.id !in excluded && s.health.overall == tier
  }

  predicate Passes(t: Try, demand: Demand) {
    t.answer.Fresh? && StillQualifies(t.answer.server, demand, t.at)
  }

  /** What the tries that passed return, in order. */
  function Passed(tries: seq<Try>, demand: Demand): seq<Item> {
    if tries == [] then []
    else
      var last := tries[|tries| - 1];
      Passed(tries[..|tries| - 1], demand)
      + if Passes(last, demand) then [Item(last.answer.server, last.answer.live)] else []
  }

  function Failures(tries: seq<Try>): seq<string> {
    if tries == [] then []
    else
      var last := tries[|tries| - 1];
      Failures(tries[..|tries| - 1]) + if last.answer.VendorFailure? then [last.answer.reason] else []
  }

  function Candidates(tries: seq<Try>): seq<Server> {
    seq(|tries|, i requires 0 <= i < |tries| => tries[i].candidate)
  }

  function IdsOf(found: seq<Server>): set<string> {
    set s | s in found :: s.id
  }

  function DrawnBy(draws: seq<Draw>): seq<Server> {
    if draws == [] then [] else DrawnBy(draws[..|draws| - 1]) + draws[|draws| - 1].found
  }

  function Drawn(log: seq<seq<Draw>>): seq<Server> {
    if log == [] then [] else Drawn(log[..|log| - 1]) + DrawnBy(log[|log| - 1])
  }

  /** A tier gave an empty draw, or was drawn from as often as it may be. */
  predicate Spent(draws: seq<Draw>) {
    |draws| == 3 || (draws != [] && draws[|draws| - 1].found == [])
  }

  lemma PassedGrows(tries: seq<Try>, t: Try, demand: Demand)
    ensures Passed(tries + [t], demand) ==
            Passed(tries, demand) + if Passes(t, demand) then [Item(t.answer.server, t.answer.live)] else []
    ensures Failures(tries + [t]) == Failures(tries) + if t.answer.VendorFailure? then [t.answer.reason] else []
    ensures Candidates(tries + [t]) == Candidates(tries) + [t.candidate]
  {
    assert (tries + [t])[..|tries|] == tries;
  }

  /** Everything returned was rechecked and qualified at that moment. */
  lemma {:induction false} ItemsQualified(tries: seq<Try>, demand: Demand, item: Item)
    requires item in Passed(tries, demand)
    ensures exists t | t in tries :: Passes(t, demand) && item == Item(t.answer.server, t.answer.live)
  {
    var last := tries[|tries| - 1];
    if item in Passed(tries[..|tries| - 1], demand) {
      ItemsQualified(tries[..|tries| - 1], demand, item);
    } else {
      assert last in tries;
    }
  }

  /** The place of every item: it is the answer to the try that brought the count to its place. */
  lemma {:induction false} ItemAt(tries: seq<Try>, demand: Demand, k: nat) returns (i: nat)
    requires k < |Passed(tries, demand)|
    ensures i < |tries| && tries[i].answer.Fresh? && StillQualifies(tries[i].answer.server, demand, tries[i].at)
    ensures Passed(tries, demand)[k] == Item(tries[i].answer.server, tries[i].answer.live)
    ensures |Passed(tries[..i], demand)| == k
  {
    var n := |tries| - 1;
    if k < |Passed(tries[..n], demand)| {
      i := ItemAt(tries[..n], demand, k);
      assert tries[..n][..i] == tries[..i];
    } else {
      i := n;
    }
  }

  ghost function Passing(tries: seq<Try>, demand: Demand): set<nat> {
    set i: nat | i < |tries| && tries[i].answer.Fresh? && StillQualifies(tries[i].answer.server, demand, tries[i].at)
  }

  lemma PassingGrows(tries: seq<Try>, t: Try, demand: Demand)
    ensures |Passing(tries + [t], demand)| == |Passing(tries, demand)| + if Passes(t, demand) then 1 else 0
  {
    var n := |tries|;
    assert Passing(tries + [t], demand) == Passing(tries, demand) + if Passes(t, demand) then {n} else {};
  }

  /** As many items as tries whose fresh server qualified: none is dropped, none is made up. */
  lemma {:induction false} EveryPassIsReturned(tries: seq<Try>, demand: Demand)
    ensures |Passed(tries, demand)| == |Passing(tries, demand)|
  {
    if tries == [] {
      assert Passing(tries, demand) == {};
    } else {
      var before, last := tries[..|tries| - 1], tries[|tries| - 1];
      assert tries == before + [last];
      EveryPassIsReturned(before, demand);
      PassedGrows(before, last, demand);
      PassingGrows(before, last, demand);
    }
  }

  lemma {:induction false} NoFailures(tries: seq<Try>)
    ensures Failures(tries) == [] <==> forall i | 0 <= i < |tries| :: !tries[i].answer.VendorFailure?
  {
    if tries != [] {
      var n := |tries| - 1;
      NoFailures(tries[..n]);
      assert forall i | 0 <= i < n :: tries[..n][i] == tries[i];
    }
  }

  /** The failure a call can raise is that of the first manager that failed. */
  lemma {:induction false} FirstFailure(tries: seq<Try>, i: nat)
    requires i < |tries| && tries[i].answer.VendorFailure?
    requires forall j | 0 <= j < i :: !tries[j].answer.VendorFailure?
    ensures Failures(tries) != [] && Failures(tries)[0] == tries[i].answer.reason
  {
    var n := |tries| - 1;
    if i < n {
      FirstFailure(tries[..n], i);
    } else {
      assert forall j | 0 <= j < n :: tries[..n][j] == tries[j];
      NoFailures(tries[..n]);
    }
  }

  lemma JoinDistinct(a: seq<Server>, b: seq<Server>)
    requires DistinctIds(a) && DistinctIds(b) && forall s | s in b :: s.id !in IdsOf(a)
    ensures DistinctIds(a + b)
  {
    forall i, j | 0 <= i < j < |a + b| ensures (a + b)[i].id != (a + b)[j].id {
      if i < |a| <= j {
        assert a[i] in a && b[j - |a|] in b;
      }
    }
  }

  lemma DrawnGrows(draws: seq<Draw>, d: Draw)
    ensures DrawnBy(draws + [d]) == DrawnBy(draws) + d.found
  {
    assert (draws + [d])[..|draws|] == draws;
  }

  /** A recheck whose ingest raised. */
  predicate Aborts(tries: seq<Try>) {
    tries != [] && tries[|tries| - 1].answer.IngestFailed?
  }

  /** Only the last try of a call can be one whose ingest raised. */
  ghost predicate StopsAtFault(tries: seq<Try>) {
    forall i | 0 <= i < |tries| - 1 :: !tries[i].answer.IngestFailed?
  }

  /** Every try is what the world answered to it. */
  ghost predicate Truthful(world: World, tries: seq<Try>) {
    forall i | 0 <= i < |tries| :: TruthfulAt(world, tries[i], i)
  }

  predicate TruthfulAt(world: World, t: Try, i: nat) {
    t.answer == Recheck(t.candidate, world.ask(i, t.candidate)) && t.at == world.now(i)
  }

  /** What a try makes of its manager's report, read off the report: a server reported anew is the
      one just ingested, one nobody was asked about is the candidate as stored, and only the
      former counts as live. */
  predicate Reads(report: Report, t: Try) {
    && (t.answer.Fresh? <==> report.NotAsked? || (report.Reported? && report.ingested.Ingested?))
    && (t.answer.Fresh? ==>
          && (t.answer.live <==> report.Reported?)
          && t.answer.server == if report.Reported? then report.ingested.server else t.candidate)
    && (t.answer.Gone? <==> report.NoLongerThere?)
    && (t.answer.VendorFailure? <==> report.ManagerFailed?)
    && (t.answer.VendorFailure? ==> t.answer.reason == report.why)
    && (t.answer.IngestFailed? <==> report.Reported? && !report.ingested.Ingested?)
    && (t.answer.IngestFailed? ==> t.answer.fault == report.ingested)
  }

  lemma TriesReadTheirReports(world: World, tries: seq<Try>)
    requires Truthful(world, tries)
    ensures forall i | 0 <= i < |tries| :: Reads(world.ask(i, tries[i].candidate), tries[i])
  {
    forall i | 0 <= i < |tries| ensures Reads(world.ask(i, tries[i].candidate), tries[i]) {
      assert TruthfulAt(world, tries[i], i);
    }
  }

  /** A draw asks for as many as are still missing, leaving out every candidate tried before it,
      and takes what the store gives. */
  predicate Drew(world: World, d: Draw, tier: HealthSeverity, tries: seq<Try>, count: nat, demand: Demand) {
    && d.tier == tier && d.tried <= |tries|
    && |Passed(tries[..d.tried], demand)| < count
    && d.size == count - |Passed(tries[..d.tried], demand)|
    && d.found == world.sample(d.tried, d.tier, d.size, IdsOf(Candidates(tries[..d.tried])))
  }

  /** The draws of one tier: at most three, and each as it should be. */
  ghost predicate TierLog(world: World, draws: seq<Draw>, tier: HealthSeverity, tries: seq<Try>, count: nat, demand: Demand) {
    |draws| <= 3 && forall d | d in draws :: Drew(world, d, tier, tries, count, demand)
  }

  /** What a call returns or raises, given what its rechecks came to. */
  function Conclusion(tries: seq<Try>, demand: Demand): Outcome {
    if Aborts(tries) then Aborted(tries[|tries| - 1].answer.fault)
    else if Passed(tries, demand) == [] && Failures(tries) != [] then Raised(Failures(tries)[0])
    else Filled(Passed(tries, demand))
  }

  /** The call aborts exactly when some recheck's ingest raises, and that recheck is its last. */
  lemma AbortsExactly(tries: seq<Try>, demand: Demand)
    requires StopsAtFault(tries)
    ensures Conclusion(tries, demand).Aborted? <==> exists t | t in tries :: t.answer.IngestFailed?
  {
    if Aborts(tries) {
      assert tries[|tries| - 1] in tries;
    } else if t :| t in tries && t.answer.IngestFailed? {
      var i :| 0 <= i < |tries| && tries[i] == t;
      assert i == |tries| - 1;
    }
  }

  /** A vendor error is not what the caller sees when a later candidate's ingest keeps
      conflicting, though nothing was selected and a recheck did fail. */
  lemma ConflictHidesVendorError(a: Server, b: Server, why: string, at: Instant, demand: Demand)
    ensures var tries := [Try(a, Recheck(a, ManagerFailed(why)), at), Try(b, Recheck(b, Reported(IngestLoop.KeptChanging)), at)];
            && Passed(tries, demand) == [] && Failures(tries) == [why]
            && Conclusion(tries, demand) == Aborted(IngestLoop.KeptChanging)
  {
    var first := Try(a, Recheck(a, ManagerFailed(why)), at);
    var second := Try(b, Recheck(b, Reported(IngestLoop.KeptChanging)), at);
    PassedGrows([], first, demand);
    PassedGrows([first], second, demand);
    assert [] + [first] == [first] && [first] + [second] == [first, second];
  }

  lemma TryGrows(world: World, tries: seq<Try>, t: Try)
    requires Truthful(world, tries) && StopsAtFault(tries) && !Aborts(tries) && TruthfulAt(world, t, |tries|)
    ensures Truthful(world, tries + [t]) && StopsAtFault(tries + [t])
  {
  }

  /** What later tries do not undo: the draws made before them. */
  lemma DrawsStand(world: World, draws: seq<Draw>, tier: HealthSeverity, tries: seq<Try>, more: seq<Try>, count: nat,
                   demand: Demand)
    requires TierLog(world, draws, tier, tries, count, demand) && tries <= more
    ensures TierLog(world, draws, tier, more, count, demand)
  {
    forall d | d in draws ensures Drew(world, d, tier, more, count, demand) {
      assert Drew(world, d, tier, tries, count, demand);
      assert more[..d.tried] == tries[..d.tried];
    }
  }

  /** Recheck the candidates of one draw; none is left over unless an ingest raises, for a draw
      never returns more than are still wanted. */
  method RecheckAll(world: World, found: seq<Server>, count: nat, demand: Demand, tries0: seq<Try>, selected0: seq<Item>)
    returns (tries: seq<Try>, selected: seq<Item>)
    requires selected0 == Passed(tries0, demand) && |selected0| + |found| <= count
    requires Truthful(world, tries0) && StopsAtFault(tries0) && !Aborts(tries0)
    ensures selected == Passed(tries, demand) && |selected| <= count
    ensures Truthful(world, tries) && StopsAtFault(tries) && tries0 <= tries
    ensures Candidates(tries) <= Candidates(tries0) + found
    ensures !Aborts(tries) ==> Candidates(tries) == Candidates(tries0) + found
  {
    tries, selected := tries0, selected0;
    var i := 0;
    while i < |found|
      invariant i <= |found| && |selected| + (|found| - i) <= count
      invariant selected == Passed(tries, demand)
      invariant Truthful(world, tries) && StopsAtFault(tries) && !Aborts(tries) && tries0 <= tries
      invariant Candidates(tries) == Candidates(tries0) + found[..i]
    {
      var t := RecheckOne(world, found[i], tries, demand);
      assert found[..i + 1] == found[..i] + [found[i]];
      tries := tries + [t];
      i := i + 1;
      if t.answer.IngestFailed? { return; }
      if t.answer.Fresh? && StillQualifies(t.answer.server, demand, t.at) {
        selected := selected + [Item(t.answer.server, t.answer.live)];
        if |selected| >= count { break; }
      }
    }
    assert i == |found|;
    assert found[..i] == found;
  }

  /** Ask a candidate's manager about it. */
  method RecheckOne(world: World, candidate: Server, tries: seq<Try>, demand: Demand) returns (t: Try)
    requires Truthful(world, tries) && StopsAtFault(tries) && !Aborts(tries)
    ensures t.candidate == candidate
    ensures Truthful(world, tries + [t]) && StopsAtFault(tries + [t])
    ensures Passed(tries + [t], demand) ==
            Passed(tries, demand) + if Passes(t, demand) then [Item(t.answer.server, t.answer.live)] else []
    ensures Candidates(tries + [t]) == Candidates(tries) + [candidate]
  {
    var n := |tries|;
    t := Try(candidate, Recheck(candidate, world.ask(n, candidate)), world.now(n));
    PassedGrows(tries, t, demand);
    TryGrows(world, tries, t);
  }

  /** One draw, leaving out every candidate tried so far. */
  method DrawOnce(world: World, tier: HealthSeverity, count: nat, demand: Demand, tries: seq<Try>) returns (draw: Draw)
    requires Honest(world) && DistinctIds(Candidates(tries)) && |Passed(tries, demand)| < count
    ensures Drew(world, draw, tier, tries, count, demand)
    ensures |draw.found| <= count - |Passed(tries, demand)| && DistinctIds(Candidates(tries) + draw.found)
  {
    var remaining := count - |Passed(tries, demand)|;
    var excluded := IdsOf(Candidates(tries));
    var found := world.sample(|tries|, tier, remaining, excluded);
    assert Sampled(found, tier, remaining, excluded);
    assert tries[..|tries|] == tries;
    JoinDistinct(Candidates(tries), found);
    draw := Draw(|tries|, tier, remaining, found);
  }

  lemma PrefixDistinct(all: seq<Server>, part: seq<Server>)
    requires DistinctIds(all) && part <= all
    ensures DistinctIds(part)
  {
  }

  /** One draw and its rechecks. */
  method FillRound(world: World, tier: HealthSeverity, count: nat, demand: Demand, tries0: seq<Try>, selected0: seq<Item>)
    returns (draw: Draw, tries: seq<Try>, selected: seq<Item>)
    requires Honest(world) && selected0 == Passed(tries0, demand) && |selected0| < count
    requires DistinctIds(Candidates(tries0)) && Truthful(world, tries0) && StopsAtFault(tries0) && !Aborts(tries0)
    ensures selected == Passed(tries, demand) && |selected| <= count
    ensures DistinctIds(Candidates(tries)) && Truthful(world, tries) && StopsAtFault(tries) && tries0 <= tries
    ensures Candidates(tries) <= Candidates(tries0) + draw.found
    ensures !Aborts(tries) ==> Candidates(tries) == Candidates(tries0) + draw.found
    ensures TierLog(world, [draw], tier, tries, count, demand)
  {
    draw := DrawOnce(world, tier, count, demand, tries0);
    tries, selected := RecheckAll(world, draw.found, count, demand, tries0, selected0);
    PrefixDistinct(Candidates(tries0) + draw.found, Candidates(tries));
    DrawsStand(world, [draw], tier, tries0, tries, count, demand);
  }

  lemma TierLogGrows(world: World, draws: seq<Draw>, draw: Draw, tier: HealthSeverity, before: seq<Try>, tries: seq<Try>,
                     count: nat, demand: Demand)
    requires TierLog(world, draws, tier, before, count, demand) && |draws| < MAX_ROUNDS_PER_TIER && before <= tries
    requires TierLog(world, [draw], tier, tries, count, demand)
    ensures TierLog(world, draws + [draw], tier, tries, count, demand)
    ensures DrawnBy(draws + [draw]) == DrawnBy(draws) + draw.found
  {
    DrawsStand(world, draws, tier, before, tries, count, demand);
    DrawnGrows(draws, draw);
    assert draw in [draw];
  }

  /** Draw from one tier until enough qualify, it gives nothing, its rounds are spent, or an
      ingest raises. */
  method FillFromTier(world: World, tier: HealthSeverity, count: nat, demand: Demand, tries0: seq<Try>, selected0: seq<Item>)
    returns (draws: seq<Draw>, tries: seq<Try>, selected: seq<Item>)
    requires Honest(world) && selected0 == Passed(tries0, demand) && |selected0| <= count
    requires DistinctIds(Candidates(tries0)) && Truthful(world, tries0) && StopsAtFault(tries0) && !Aborts(tries0)
    ensures selected == Passed(tries, demand) && |selected| <= count
    ensures DistinctIds(Candidates(tries)) && Truthful(world, tries) && StopsAtFault(tries) && tries0 <= tries
    ensures Candidates(tries) <= Candidates(tries0) + DrawnBy(draws)
    ensures !Aborts(tries) ==> Candidates(tries) == Candidates(tries0) + DrawnBy(draws)
    ensures TierLog(world, draws, tier, tries, count, demand)
    ensures |selected| < count && !Aborts(tries) ==> Spent(draws)
  {
    draws, tries, selected := [], tries0, selected0;
    while |draws| < MAX_ROUNDS_PER_TIER && |selected| < count
      invariant selected == Passed(tries, demand) && |selected| <= count
      invariant DistinctIds(Candidates(tries)) && Truthful(world, tries) && StopsAtFault(tries)
      invariant tries0 <= tries && !Aborts(tries)
      invariant Candidates(tries) == Candidates(tries0) + DrawnBy(draws)
      invariant TierLog(world, draws, tier, tries, count, demand)
      decreases MAX_ROUNDS_PER_TIER - |draws|
    {
      var draw;
      var before := tries;
      draw, tries, selected := FillRound(world, tier, count, demand, tries, selected);
      TierLogGrows(world, draws, draw, tier, before, tries, count, demand);
      assert Candidates(before) + draw.found == Candidates(tries0) + (DrawnBy(draws) + draw.found);
      draws := draws + [draw];
      if draw.found == [] || Aborts(tries) { break; }
    }
  }

  /** The draws of every tier so far, in order, and what became of them. */
  ghost predicate Logged(world: World, log: seq<seq<Draw>>, tries: seq<Try>, count: nat, demand: Demand) {
    && |log| <= |demand.tiers|
    && forall i | 0 <= i < |log| :: TierLog(world, log[i], demand.tiers[i], tries, count, demand)
  }

  lemma LogGrows(world: World, log: seq<seq<Draw>>, draws: seq<Draw>, before: seq<Try>, tries: seq<Try>, count: nat,
                 demand: Demand)
    requires Logged(world, log, before, count, demand) && |log| < |demand.tiers| && before <= tries
    requires TierLog(world, draws, demand.tiers[|log|], tries, count, demand)
    ensures Logged(world, log + [draws], tries, count, demand)
    ensures Drawn(log + [draws]) == Drawn(log) + DrawnBy(draws)
  {
    assert (log + [draws])[..|log|] == log;
    forall i | 0 <= i < |log| ensures TierLog(world, log[i], demand.tiers[i], tries, count, demand) {
      DrawsStand(world, log[i], demand.tiers[i], before, tries, count, demand);
    }
  }

  /** Fill up to `count` places, best tiers first. */
  method FillFromTiers(world: World, count: nat, demand: Demand)
    returns (outcome: Outcome, log: seq<seq<Draw>>, tries: seq<Try>)
    requires Honest(world)
    // Every try is one the world answered, and an ingest that raises is the last thing that happens.
    ensures Truthful(world, tries) && StopsAtFault(tries)
    ensures forall i | 0 <= i < |tries| :: Reads(world.ask(i, tries[i].candidate), tries[i])
    // At most as many as were asked for, one for every try whose fresh server qualified.
    ensures |Passed(tries, demand)| == |Passing(tries, demand)| <= count
    ensures outcome.Filled? ==> outcome.items == Passed(tries, demand)
    // The call aborts exactly when an ingest raised; otherwise the vendor's error is raised exactly
    // when nothing was selected and some recheck failed; otherwise what passed is returned.
    ensures outcome == Conclusion(tries, demand)
    ensures outcome.Aborted? <==> exists t | t in tries :: t.answer.IngestFailed?
    ensures outcome.Raised? <==> !outcome.Aborted? && Passing(tries, demand) == {} && Failures(tries) != []
    // Drawn candidates are rechecked in order, none twice, and none is left over but by an abort.
    ensures Candidates(tries) <= Drawn(log) && DistinctIds(Candidates(tries))
    ensures !outcome.Aborted? ==> Candidates(tries) == Drawn(log)
    // Tiers are drawn from in order, at most three times each, each draw for what is still missing.
    ensures Logged(world, log, tries, count, demand)
    // A short result means that every tier was spent.
    ensures !outcome.Aborted? && |Passed(tries, demand)| < count ==>
              |log| == |demand.tiers| && forall i | 0 <= i < |log| :: Spent(log[i])
  {
    var selected;
    log, tries, selected := DrawFromTiers(world, count, demand);
    AbortsExactly(tries, demand);
    EveryPassIsReturned(tries, demand);
    TriesReadTheirReports(world, tries);
    if Aborts(tries) { return Aborted(tries[|tries| - 1].answer.fault), log, tries; }
    var failures := Failures(tries);
    if selected == [] && failures != [] { return Raised(failures[0]), log, tries; }
    outcome := Filled(selected);
  }

  method DrawFromTiers(world: World, count: nat, demand: Demand)
    returns (log: seq<seq<Draw>>, tries: seq<Try>, selected: seq<Item>)
    requires Honest(world)
    ensures Truthful(world, tries) && StopsAtFault(tries)
    ensures selected == Passed(tries, demand) && |selected| <= count
    ensures Candidates(tries) <= Drawn(log) && DistinctIds(Candidates(tries))
    ensures !Aborts(tries) ==> Candidates(tries) == Drawn(log)
    ensures Logged(world, log, tries, count, demand)
    ensures !Aborts(tries) && |selected| < count ==>
              |log| == |demand.tiers| && forall i | 0 <= i < |log| :: Spent(log[i])
  {
    log, tries, selected := [], [], [];
    while |log| < |demand.tiers| && |selected| < count
      invariant |selected| <= count && selected == Passed(tries, demand)
      invariant Truthful(world, tries) && StopsAtFault(tries) && !Aborts(tries)
      invariant Candidates(tries) == Drawn(log) && DistinctIds(Candidates(tries))
      invariant Logged(world, log, tries, count, demand)
      invariant |selected| < count ==> forall i | 0 <= i < |log| :: Spent(log[i])
      decreases |demand.tiers| - |log|
    {
      var draws;
      var before := tries;
      draws, tries, selected := FillFromTier(world, demand.tiers[|log|], count, demand, tries, selected);
      LogGrows(world, log, draws, before, tries, count, demand);
      log := log + [draws];
      if Aborts(tries) { return; }
    }
  }
}
