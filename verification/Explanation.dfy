/** Saying why none of the matching servers is available: one count per first reason. */
module Explanation {
  import opened Documents
  import opened Filters
  import opened Availability

  datatype Step = Step(code: Reason, condition: Filter)

  datatype Hit = Hit(code: Reason, hits: nat)

  /** The conditions that exclude a server, most decisive first. */
  function Steps(demand: Demand, now: Instant): seq<Step> {
    [Step(InstalledElsewhere, Only(StatePath, Equals(State(StateNow(Installed))))),
     Step(ClaimedByMce, Only(StatePath, Equals(State(StateNow(InstalledToInventory))))),
     Step(InMaintenance, Only(MaintenancePath, Equals(Flag(true)))),
     Step(Unreachable, Only(ReachablePath, Equals(Flag(false)))),
     Step(Reserved, Filter([Or(LiveLocks(now))])),
     Step(HealthTier, Only(OverallPath, NoneIn(Severities(demand.tiers)))),
     Step(NetworkHealth, Only(NetworkPath, NotEquals(Severity(SeverityNow(REQUIRED_NETWORK_HEALTH)))))]
    + if demand.minNicMacs >= 1 then [Step(NicMacsUnread, Filter([Nor([NicMacFilters(demand.minNicMacs)])]))] else []
  }

  function CountMatching(docs: seq<Raw>, filter: Filter): nat {
    if docs == [] then 0
    else CountMatching(docs[..|docs| - 1], filter) + if Matches(filter, docs[|docs| - 1]) then 1 else 0
  }

  /** The step a document is counted under: the first whose condition holds of it. */
  function First(steps: seq<Step>, raw: Raw): (k: nat)
    ensures k <= |steps|
  {
    if steps == [] then 0
    else if Matches(steps[0].condition, raw) then 0
    else 1 + First(steps[1..], raw)
  }

  /** How many of the caller's matches are counted under step `k`; `|steps|` is no step. */
  function Under(docs: seq<Raw>, base: Filter, steps: seq<Step>, k: nat): nat {
    if docs == [] then 0
    else
      var last := docs[|docs| - 1];
      Under(docs[..|docs| - 1], base, steps, k) + if Matches(base, last) && First(steps, last) == k then 1 else 0
  }

  function SumUnder(docs: seq<Raw>, base: Filter, steps: seq<Step>, n: nat): nat {
    if n == 0 then 0 else SumUnder(docs, base, steps, n - 1) + Under(docs, base, steps, n - 1)
  }

  /** The non-empty counts of the first `n` steps, in order. */
  function NonZero(docs: seq<Raw>, base: Filter, steps: seq<Step>, n: nat): seq<Hit>
    requires n <= |steps|
  {
    if n == 0 then []
    else
      var hits := Under(docs, base, steps, n - 1);
      NonZero(docs, base, steps, n - 1) + if hits > 0 then [Hit(steps[n - 1].code, hits)] else []
  }

  function Conditions(steps: seq<Step>): seq<Filter> {
    seq(|steps|, i requires 0 <= i < |steps| => steps[i].condition)
  }

  /** The query of one step: the caller's matches that meet its condition and no earlier one. */
  function StepQuery(base: Filter, condition: Filter, already: seq<Filter>): Filter {
    Filter([And([base, condition] + if already != [] then [Filter([Nor(already)])] else [])])
  }

  lemma {:induction false} FirstIs(steps: seq<Step>, raw: Raw, k: nat)
    requires k <= |steps| && forall j | 0 <= j < k :: !Matches(steps[j].condition, raw)
    requires k < |steps| ==> Matches(steps[k].condition, raw)
    ensures First(steps, raw) == k
  {
    if k > 0 {
      forall j | 0 <= j < k - 1 ensures !Matches(steps[1..][j].condition, raw) {
        assert steps[1..][j] == steps[j + 1];
      }
      FirstIs(steps[1..], raw, k - 1);
    }
  }

  lemma {:induction false} FirstMeans(steps: seq<Step>, raw: Raw)
    ensures var k := First(steps, raw);
            && (forall j | 0 <= j < k :: !Matches(steps[j].condition, raw))
            && (k < |steps| ==> Matches(steps[k].condition, raw))
  {
    if steps != [] && !Matches(steps[0].condition, raw) {
      FirstMeans(steps[1..], raw);
      var k := First(steps[1..], raw);
      forall j | 0 <= j < k + 1 ensures !Matches(steps[j].condition, raw) {
        if j > 0 { assert steps[j] == steps[1..][j - 1]; }
      }
    }
  }

  lemma StepQueryAsks(base: Filter, condition: Filter, already: seq<Filter>, raw: Raw)
    ensures Matches(StepQuery(base, condition, already), raw) <==>
              Matches(base, raw) && Matches(condition, raw) && forall f | f in already :: !Matches(f, raw)
  {
    var none := Filter([Nor(already)]);
    var parts := [base, condition] + if already != [] then [none] else [];
    assert base in parts && condition in parts && (already != [] ==> none in parts);
    assert forall f | f in parts :: f == base || f == condition || f == none;
    assert Matches(none, raw) <==> forall f | f in already :: !Matches(f, raw) by {
      assert Nor(already) in none.clauses;
    }
    var query := StepQuery(base, condition, already);
    assert query.clauses[0] == And(parts) && And(parts) in query.clauses;
  }

  /** A step's query finds exactly the matches whose first reason it is. */
  lemma StepQueryFindsFirsts(base: Filter, steps: seq<Step>, k: nat, raw: Raw)
    requires k < |steps|
    ensures Matches(StepQuery(base, steps[k].condition, Conditions(steps[..k])), raw) <==>
              Matches(base, raw) && First(steps, raw) == k
  {
    var already := Conditions(steps[..k]);
    StepQueryAsks(base, steps[k].condition, already, raw);
    FirstMeans(steps, raw);
    forall j | 0 <= j < k ensures already[j] == steps[j].condition && already[j] in already {}
    if Matches(steps[k].condition, raw) && forall f | f in already :: !Matches(f, raw) {
      FirstIs(steps, raw, k);
    }
  }

  lemma {:induction false} StepCounts(docs: seq<Raw>, base: Filter, steps: seq<Step>, k: nat)
    requires k < |steps|
    ensures CountMatching(docs, StepQuery(base, steps[k].condition, Conditions(steps[..k]))) == Under(docs, base, steps, k)
  {
    if docs != [] {
      StepCounts(docs[..|docs| - 1], base, steps, k);
      StepQueryFindsFirsts(base, steps, k, docs[|docs| - 1]);
    }
  }

  lemma {:induction false} SumGrows(docs: seq<Raw>, base: Filter, steps: seq<Step>, n: nat)
    requires docs != []
    ensures var last := docs[|docs| - 1];
            SumUnder(docs, base, steps, n) ==
            SumUnder(docs[..|docs| - 1], base, steps, n) + if Matches(base, last) && First(steps, last) < n then 1 else 0
  {
    if n > 0 { SumGrows(docs, base, steps, n - 1); }
  }

  lemma {:induction false} NoDocsNoSum(base: Filter, steps: seq<Step>, n: nat)
    ensures SumUnder([], base, steps, n) == 0
  {
    if n > 0 { NoDocsNoSum(base, steps, n - 1); }
  }

  /** No match is counted by two steps, and one that no step counts is left over: the counts are
      disjoint, and with the matches no step excludes they add up to the total. */
  lemma {:induction false} CountsPartition(docs: seq<Raw>, base: Filter, steps: seq<Step>)
    ensures SumUnder(docs, base, steps, |steps|) + Under(docs, base, steps, |steps|) == CountMatching(docs, base)
  {
    if docs == [] {
      NoDocsNoSum(base, steps, |steps|);
    } else {
      CountsPartition(docs[..|docs| - 1], base, steps);
      SumGrows(docs, base, steps, |steps|);
    }
  }

  /** What each step asks of a document. */
  lemma StepsAsk(raw: Raw, demand: Demand, now: Instant)
    ensures var steps := Steps(demand, now);
            && (Matches(steps[0].condition, raw) <==> raw.state == Some(StateNow(Installed)))
            && (Matches(steps[1].condition, raw) <==> raw.state == Some(StateNow(InstalledToInventory)))
            && (Matches(steps[2].condition, raw) <==> raw.inMaintenance == Some(true))
            && (Matches(steps[3].condition, raw) <==> raw.reachable == Some(false))
  {
    OnlyAsks(StatePath, Equals(State(StateNow(Installed))), raw);
    OnlyAsks(StatePath, Equals(State(StateNow(InstalledToInventory))), raw);
    OnlyAsks(MaintenancePath, Equals(Flag(true)), raw);
    OnlyAsks(ReachablePath, Equals(Flag(false)), raw);
  }

  lemma LaterStepsAsk(raw: Raw, demand: Demand, now: Instant)
    ensures var steps := Steps(demand, now);
            && (Matches(steps[4].condition, raw) <==> Load(raw).reservation.IsLive(now))
            && (Matches(steps[5].condition, raw) <==>
                  !(raw.overall.Some? && raw.overall.value.SeverityNow? && raw.overall.value.severity in demand.tiers))
            && (Matches(steps[6].condition, raw) <==> raw.network != Some(SeverityNow(Healthy)))
  {
    var reserved := Filter([Or(LiveLocks(now))]);
    assert Or(LiveLocks(now)) in reserved.clauses;
    LiveLocksAsk(raw, now);
    TiersAsk(raw, demand.tiers);
    OnlyAsks(OverallPath, NoneIn(Severities(demand.tiers)), raw);
    OnlyAsks(NetworkPath, NotEquals(Severity(SeverityNow(REQUIRED_NETWORK_HEALTH))), raw);
  }

  lemma LastStepAsks(raw: Raw, demand: Demand, now: Instant)
    ensures |Steps(demand, now)| == if demand.minNicMacs >= 1 then 8 else 7
    ensures demand.minNicMacs >= 1 ==>
              (Matches(Steps(demand, now)[7].condition, raw) <==> NicMacsShort(Load(raw), demand.minNicMacs))
  {
    var macs := NicMacFilters(demand.minNicMacs);
    var short := Filter([Nor([macs])]);
    assert Nor([macs]) in short.clauses && macs in [macs];
    NicMacsAsk(raw, demand.minNicMacs);
  }

  /** No step counts a match exactly when it qualifies and reads today's severities. */
  lemma UncountedExactly(raw: Raw, demand: Demand, now: Instant)
    ensures First(Steps(demand, now), raw) == |Steps(demand, now)| <==>
              && StillQualifies(Load(raw), demand, now)
              && raw.overall.Some? && raw.overall.value.SeverityNow? && raw.network != Some(InfoRetired)
  {
    var steps := Steps(demand, now);
    StepsAsk(raw, demand, now);
    LaterStepsAsk(raw, demand, now);
    LastStepAsks(raw, demand, now);
    LoadReads(raw);
    FirstMeans(steps, raw);
  }

  /** On a document that spells its status in today's values, the step that counts it and the
      first reason the service would give for it are the same. */
  lemma FirstStepIsFirstReason(raw: Raw, demand: Demand, now: Instant)
    requires Current(raw)
    ensures var steps, reasons := Steps(demand, now), Reasons(Load(raw), demand, now);
            var k := First(steps, raw);
            if k == |steps| then reasons == [] else reasons != [] && reasons[0] == steps[k].code
  {
    var steps, server := Steps(demand, now), Load(raw);
    StepsAsk(raw, demand, now);
    LaterStepsAsk(raw, demand, now);
    LastStepAsks(raw, demand, now);
    LoadReads(raw);
    FirstMeans(steps, raw);
    FirstReason(server, demand, now);
  }

  /** Which condition decides the first reason. */
  lemma FirstReason(server: Server, demand: Demand, now: Instant)
    ensures var reasons := Reasons(server, demand, now);
            if server.openshift.state == Installed then reasons != [] && reasons[0] == InstalledElsewhere
            else if server.openshift.state == InstalledToInventory then reasons != [] && reasons[0] == ClaimedByMce
            else if server.maintenance.enabled then reasons != [] && reasons[0] == InMaintenance
            else if !server.reachable then reasons != [] && reasons[0] == Unreachable
            else if server.reservation.IsLive(now) then reasons != [] && reasons[0] == Reserved
            else if server.health.overall !in demand.tiers then reasons != [] && reasons[0] == HealthTier
            else if server.health.network != REQUIRED_NETWORK_HEALTH then reasons != [] && reasons[0] == NetworkHealth
            else if NicMacsShort(server, demand.minNicMacs) then reasons != [] && reasons[0] == NicMacsUnread
            else reasons == []
  {
  }

  /** A match no step counts and no draw finds: it qualifies, and only its state, maintenance
      or reachability is not spelled in today's values. */
  predicate Overlooked(raw: Raw, demand: Demand, now: Instant) {
    && StillQualifies(Load(raw), demand, now)
    && raw.overall.Some? && raw.overall.value.SeverityNow? && raw.network != Some(InfoRetired)
    && !(Spelled(raw.state) && raw.inMaintenance.Some? && raw.reachable.Some?)
  }

  lemma {:induction false} CountsNone(docs: seq<Raw>, filter: Filter)
    requires CountMatching(docs, filter) == 0
    ensures forall raw | raw in docs :: !Matches(filter, raw)
  {
    if docs != [] { CountsNone(docs[..|docs| - 1], filter); }
  }

  lemma {:induction false} UnderNone(docs: seq<Raw>, base: Filter, steps: seq<Step>, k: nat)
    ensures Under(docs, base, steps, k) == 0 <==> forall raw | raw in docs && Matches(base, raw) :: First(steps, raw) != k
  {
    if docs != [] {
      var n := |docs| - 1;
      UnderNone(docs[..n], base, steps, k);
      assert forall raw | raw in docs :: raw in docs[..n] || raw == docs[n];
      assert docs[n] in docs && forall raw | raw in docs[..n] :: raw in docs;
    }
  }

  /** When no match is assignable, the counts add up to the number of matches exactly when no
      match is overlooked; in particular whenever every match spells its status in today's
      values. */
  lemma ExplanationAddsUp(docs: seq<Raw>, base: Filter, demand: Demand, now: Instant)
    requires IsBase(base) && CountMatching(docs, FullQuery(base, demand, now)) == 0
    ensures var steps := Steps(demand, now);
            && (SumUnder(docs, base, steps, |steps|) == CountMatching(docs, base) <==>
                  forall raw | raw in docs && Matches(base, raw) :: !Overlooked(raw, demand, now))
            && ((forall raw | raw in docs && Matches(base, raw) :: Current(raw)) ==>
                  SumUnder(docs, base, steps, |steps|) == CountMatching(docs, base))
  {
    var steps := Steps(demand, now);
    CountsPartition(docs, base, steps);
    UnderNone(docs, base, steps, |steps|);
    CountsNone(docs, FullQuery(base, demand, now));
    forall raw | raw in docs && Matches(base, raw)
      ensures First(steps, raw) == |steps| <==> Overlooked(raw, demand, now)
    {
      OverlookedExactly(raw, base, demand, now);
    }
  }

  lemma OverlookedExactly(raw: Raw, base: Filter, demand: Demand, now: Instant)
    requires IsBase(base) && Matches(base, raw) && !Matches(FullQuery(base, demand, now), raw)
    ensures First(Steps(demand, now), raw) == |Steps(demand, now)| <==> Overlooked(raw, demand, now)
  {
    UncountedExactly(raw, demand, now);
    QueryAgreesWithPredicate(raw, base, demand, now);
  }

  /** The codes given are those of the steps that count something, in order, each with the
      number of matches it is the first reason for. */
  lemma {:induction false} CodesAreNonZero(docs: seq<Raw>, base: Filter, steps: seq<Step>, n: nat, hit: Hit)
    requires n <= |steps|
    ensures hit in NonZero(docs, base, steps, n) <==>
              hit.hits > 0 && exists k :: 0 <= k < n && IsStep(steps, k, hit.code) && Under(docs, base, steps, k) == hit.hits
  {
    if n > 0 {
      CodesAreNonZero(docs, base, steps, n - 1, hit);
      if hit == Hit(steps[n - 1].code, Under(docs, base, steps, n - 1)) { assert IsStep(steps, n - 1, hit.code); }
    }
  }

  predicate IsStep(steps: seq<Step>, k: int, code: Reason) {
    0 <= k < |steps| && steps[k].code == code
  }

  /** Count the matches under each step, excluding those an earlier step counted. */
  method ExplainNoneAssignable(docs: seq<Raw>, base: Filter, demand: Demand, now: Instant)
    returns (total: nat, counted: seq<Hit>)
    ensures total == CountMatching(docs, base)
    ensures counted == NonZero(docs, base, Steps(demand, now), |Steps(demand, now)|)
  {
    var steps := Steps(demand, now);
    total := CountMatching(docs, base);
    counted := [];
    var already: seq<Filter> := [];
    for i := 0 to |steps|
      invariant already == Conditions(steps[..i])
      invariant counted == NonZero(docs, base, steps, i)
    {
      var hits := CountMatching(docs, StepQuery(base, steps[i].condition, already));
      StepCounts(docs, base, steps, i);
      already := already + [steps[i].condition];
      if hits > 0 { counted := counted + [Hit(steps[i].code, hits)]; }
    }
  }
}
