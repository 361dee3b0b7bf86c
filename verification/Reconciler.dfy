/** Reconciling as the service carries it out: paged listings, grouped matches, one write a server. */
module Reconciler {
  import opened Documents
  import opened Store
  import opened Claims
  import opened Convergence
  import opened Membership

  datatype StateChange = StateChange(id: string, before: OpenShiftState, after: OpenShiftState)

  /** Exactly one event for every server whose state differs between two collections. */
  ghost predicate Recorded(events: seq<StateChange>, docs: Collection, after: Collection)
    requires after.Keys == docs.Keys
  {
    && (forall k | 0 <= k < |events| ::
          && events[k].id in docs
          && events[k].before == docs[events[k].id].openshift.state
          && events[k].after == after[events[k].id].openshift.state
          && events[k].before != events[k].after)
    && (forall k, m | 0 <= k < m < |events| :: events[k].id != events[m].id)
    && (forall id | id in docs && docs[id].openshift.state != after[id].openshift.state ::
          exists k :: 0 <= k < |events| && events[k].id == id)
  }

  /** What each server's membership is to become. */
  type Verdicts = map<string, Lifecycle>

  function VerdictsOf(docs: Collection, job: Job, leads: seq<Lead>): Verdicts {
    map id | id in docs :: Decided(docs, job, leads, id)
  }

  predicate Moves(docs: Collection, verdicts: Verdicts, id: string) {
    id in docs && id in verdicts && !SameMembership(docs[id].openshift, verdicts[id])
  }

  ghost function Movers(run: Run): set<string> {
    set id | id in run.docs && Moves(run.docs, run.verdicts, id)
  }

  function StateEvent(id: string, before: Lifecycle, after: Lifecycle): seq<StateChange> {
    if before.state == after.state then [] else [StateChange(id, before.state, after.state)]
  }

  function Change(docs: Collection, verdicts: Verdicts, id: string): seq<StateChange> {
    if id in docs && id in verdicts then StateEvent(id, docs[id].openshift, verdicts[id]) else []
  }

  /** The events of the servers in `ids`, in that order. */
  function Changes(docs: Collection, verdicts: Verdicts, ids: seq<string>): seq<StateChange> {
    if ids == [] then [] else Changes(docs, verdicts, ids[..|ids| - 1]) + Change(docs, verdicts, ids[|ids| - 1])
  }

  /** The collection once the servers in `moved` are written. */
  function Rewrites(docs: Collection, verdicts: Verdicts, now: Instant, moved: seq<string>): (after: Collection)
    ensures after.Keys == docs.Keys
  {
    if moved == [] then docs
    else
      var before, id := Rewrites(docs, verdicts, now, moved[..|moved| - 1]), moved[|moved| - 1];
      if id in docs && id in verdicts then before[id := Rewritten(docs[id], verdicts[id], now)] else before
  }

  lemma {:induction false} RewritesAt(docs: Collection, verdicts: Verdicts, now: Instant, moved: seq<string>, id: string)
    requires id in docs
    ensures Rewrites(docs, verdicts, now, moved)[id] ==
            if id in moved && id in verdicts then Rewritten(docs[id], verdicts[id], now) else docs[id]
  {
    if moved != [] {
      RewritesAt(docs, verdicts, now, moved[..|moved| - 1], id);
    }
  }

  function Progress(docs: Collection, verdicts: Verdicts, now: Instant, dryRun: bool, moved: seq<string>): Collection {
    if dryRun then docs else Rewrites(docs, verdicts, now, moved)
  }

  ghost function Announced(docs: Collection, verdicts: Verdicts, dryRun: bool, moved: seq<string>): seq<StateChange> {
    if dryRun then [] else Changes(docs, verdicts, moved)
  }

  /** A run as its loops see it: what it started from and what it has to write. */
  datatype Run = Run(docs: Collection, verdicts: Verdicts, dryRun: bool, now: Instant, before: seq<StateChange>)

  /** The run stands where it does after writing the servers in `moved`, and only those. */
  ghost predicate Stands(run: Run, moved: seq<string>, docs: Collection, trail: seq<StateChange>) {
    && Keyed(docs) && UniqueMachines(docs)
    && docs == Progress(run.docs, run.verdicts, run.now, run.dryRun, moved)
    && trail == run.before + Announced(run.docs, run.verdicts, run.dryRun, moved)
  }

  lemma ChangesGrow(docs: Collection, verdicts: Verdicts, ids: seq<string>, id: string)
    ensures Changes(docs, verdicts, ids + [id]) == Changes(docs, verdicts, ids) + Change(docs, verdicts, id)
  {
    assert (ids + [id])[..|ids|] == ids;
  }

  lemma {:induction false} ChangesJoin(docs: Collection, verdicts: Verdicts, a: seq<string>, b: seq<string>)
    ensures Changes(docs, verdicts, a + b) == Changes(docs, verdicts, a) + Changes(docs, verdicts, b)
    decreases |b|
  {
    if b == [] {
      assert a + b == a;
    } else {
      var n := |b| - 1;
      assert a + b == (a + b[..n]) + [b[n]];
      ChangesJoin(docs, verdicts, a, b[..n]);
      ChangesGrow(docs, verdicts, a + b[..n], b[n]);
    }
  }

  lemma JoinedDistinct(a: seq<string>, b: seq<string>)
    requires Distinct(a) && Distinct(b) && forall id | id in b :: id !in a
    ensures Distinct(a + b)
  {
    forall i, j | 0 <= i < j < |a + b| ensures (a + b)[i] != (a + b)[j] {
      if i < |a| <= j {
        assert b[j - |a|] in b;
      }
    }
  }

  ghost predicate Exact(events: seq<StateChange>, docs: Collection, verdicts: Verdicts, ids: seq<string>) {
    && (forall k | 0 <= k < |events| :: events[k].id in ids && [events[k]] == Change(docs, verdicts, events[k].id))
    && (forall k, m | 0 <= k < m < |events| :: events[k].id != events[m].id)
  }

  lemma {:induction false} ChangesAreExact(docs: Collection, verdicts: Verdicts, ids: seq<string>)
    requires Distinct(ids)
    ensures Exact(Changes(docs, verdicts, ids), docs, verdicts, ids)
  {
    if ids != [] {
      PrefixGrows(ids, |ids| - 1);
      ChangesAreExact(docs, verdicts, ids[..|ids| - 1]);
    }
  }

  lemma {:induction false} EveryChangeIsListed(docs: Collection, verdicts: Verdicts, ids: seq<string>, id: string)
    requires id in ids && id in docs && id in verdicts && docs[id].openshift.state != verdicts[id].state
    ensures exists k :: 0 <= k < |Changes(docs, verdicts, ids)| && Changes(docs, verdicts, ids)[k].id == id
  {
    var n := |ids| - 1;
    var before, events := Changes(docs, verdicts, ids[..n]), Changes(docs, verdicts, ids);
    if id == ids[n] {
      assert events[|before|].id == id;
    } else {
      EveryChangeIsListed(docs, verdicts, ids[..n], id);
      var k :| 0 <= k < |before| && before[k].id == id;
      assert events[k].id == id;
    }
  }

  /** Writing one more server: what its write finds, leaves and announces. */
  lemma StepOn(docs: Collection, verdicts: Verdicts, now: Instant, dryRun: bool, moved: seq<string>, id: string)
    requires id in docs && id in verdicts && id !in moved
    ensures var before := Progress(docs, verdicts, now, dryRun, moved);
            && id in before && before[id] == docs[id]
            && Progress(docs, verdicts, now, dryRun, moved + [id]) ==
               (if dryRun then before else before[id := Rewritten(docs[id], verdicts[id], now)])
    ensures Announced(docs, verdicts, dryRun, moved + [id]) ==
            Announced(docs, verdicts, dryRun, moved) + if dryRun then [] else StateEvent(id, docs[id].openshift, verdicts[id])
  {
    ChangesGrow(docs, verdicts, moved, id);
    RewritesAt(docs, verdicts, now, moved, id);
    assert (moved + [id])[..|moved|] == moved;
  }

  lemma PrefixGrows(ids: seq<string>, k: nat)
    requires Distinct(ids) && k < |ids|
    ensures ids[..k + 1] == ids[..k] + [ids[k]] && ids[k] !in ids[..k]
  {
  }

  /** The ids of a list that are among the chosen ones, in order. */
  ghost function Pick(ids: seq<string>, chosen: set<string>): seq<string> {
    if ids == [] then []
    else Pick(ids[..|ids| - 1], chosen) + if ids[|ids| - 1] in chosen then [ids[|ids| - 1]] else []
  }

  lemma {:induction false} PickIsExact(ids: seq<string>, chosen: set<string>)
    requires Distinct(ids)
    ensures Distinct(Pick(ids, chosen))
    ensures forall id :: id in Pick(ids, chosen) <==> id in ids && id in chosen
  {
    if ids != [] {
      var n := |ids| - 1;
      PrefixGrows(ids, n);
      assert ids == ids[..n] + [ids[n]];
      PickIsExact(ids[..n], chosen);
      if ids[n] in chosen { DistinctGrows(Pick(ids[..n], chosen), ids[n]); }
    }
  }

  /** One more id of a list. */
  lemma PickGrows(ids: seq<string>, k: nat, chosen: set<string>)
    requires Distinct(ids) && k < |ids|
    ensures Pick(ids[..k + 1], chosen) == Pick(ids[..k], chosen) + if ids[k] in chosen then [ids[k]] else []
    ensures ids[k] !in Pick(ids[..k], chosen)
  {
    PrefixGrows(ids, k);
    assert ids[..k + 1][..k] == ids[..k];
    PickIsExact(ids[..k], chosen);
  }

  lemma JoinGrows(a: seq<string>, b: seq<string>, id: string)
    ensures (a + b) + [id] == a + (b + [id])
    ensures id in a + b <==> id in a || id in b
  {
  }

  lemma {:induction false} DistinctCounts(ids: seq<string>)
    requires Distinct(ids)
    ensures |IdSet(ids)| == |ids|
  {
    if ids != [] {
      PrefixGrows(ids, |ids| - 1);
      DistinctCounts(ids[..|ids| - 1]);
      assert ids[..|ids|] == ids;
      assert IdSet(ids) == IdSet(ids[..|ids| - 1]) + {ids[|ids| - 1]};
    }
  }

  /** A rewrite of membership alone cannot collide with another machine. */
  lemma RewriteFits(docs: Collection, id: string, updated: Server)
    requires Keyed(docs) && UniqueMachines(docs) && id in docs
    requires updated.id == id && updated.identity == docs[id].identity
    ensures ReplaceIfRevision(docs, updated, docs[id].revision) == (Written, docs[id := updated])
    ensures Keyed(docs[id := updated]) && UniqueMachines(docs[id := updated])
  {
    var replaced := docs[id := updated];
    forall i, j | i in replaced && j in replaced && i != j ensures !SameMachine(replaced[i], replaced[j]) {
      assert !SameMachine(docs[i], docs[j]);
    }
    ReplaceIsExact(docs, updated, docs[id].revision);
  }

  lemma SelectAt(docs: Collection, order: seq<string>, at: nat, query: Query)
    requires at < |order|
    ensures Select(docs, order[at..], query) ==
            (if order[at] in docs && Hits(query, docs[order[at]]) then [order[at]] else [])
            + Select(docs, order[at + 1..], query)
  {
    assert order[at..][1..] == order[at + 1..];
  }

  /** The matches of a run, grouped by server in order of first appearance. */
  ghost predicate Grouped(docs: Collection, job: Job, leads: seq<Lead>, touched: seq<string>,
                          groups: map<string, seq<Report>>)
  {
    && Distinct(touched)
    && IdSet(touched) == groups.Keys <= docs.Keys
    && (forall id | id in docs :: InGroup(docs, job, leads, groups, id))
  }

  predicate InGroup(docs: Collection, job: Job, leads: seq<Lead>, groups: map<string, seq<Report>>, id: string)
    requires id in docs
  {
    if id in groups then groups[id] != [] && ReportsOf(docs, job, leads, id) == groups[id]
    else ReportsOf(docs, job, leads, id) == []
  }

  lemma ReportsGrow(docs: Collection, job: Job, leads: seq<Lead>, lead: Lead, id: string)
    requires id in docs
    ensures ReportsOf(docs, job, leads + [lead], id) == ReportsOf(docs, job, leads, id) + ReportFrom(docs, job, lead, id)
  {
    assert (leads + [lead])[..|leads|] == leads;
  }

  function Grown(groups: map<string, seq<Report>>, id: string, report: Report): map<string, seq<Report>> {
    groups[id := (if id in groups then groups[id] else []) + [report]]
  }

  lemma InGroupGrows(docs: Collection, job: Job, leads: seq<Lead>, lead: Lead, groups: map<string, seq<Report>>,
                     report: Report, i: string)
    requires i in docs && InGroup(docs, job, leads, groups, i)
    requires lead.resolution.Matched? && lead.resolution.id in docs
    requires [report] == ReportFrom(docs, job, lead, lead.resolution.id)
    ensures InGroup(docs, job, leads + [lead], Grown(groups, lead.resolution.id, report), i)
  {
    ReportsGrow(docs, job, leads, lead, i);
  }

  lemma TouchedGrows(touched: seq<string>, groups: map<string, seq<Report>>, id: string, report: Report)
    requires Distinct(touched) && IdSet(touched) == groups.Keys
    ensures var grown := if id in groups then touched else touched + [id];
            Distinct(grown) && IdSet(grown) == Grown(groups, id, report).Keys
  {
    assert id in touched <==> id in IdSet(touched);
    if id !in groups {
      DistinctGrows(touched, id);
      assert IdSet(touched + [id]) == IdSet(touched) + {id};
    }
  }

  function NextTouched(lead: Lead, touched: seq<string>, groups: map<string, seq<Report>>): seq<string> {
    if lead.resolution.Matched? && lead.resolution.id !in groups then touched + [lead.resolution.id] else touched
  }

  function NextGroups(docs: Collection, job: Job, lead: Lead, groups: map<string, seq<Report>>): map<string, seq<Report>> {
    if lead.resolution.Matched? && lead.resolution.id in docs
    then Grown(groups, lead.resolution.id, ReportFrom(docs, job, lead, lead.resolution.id)[0])
    else groups
  }

  lemma GroupGrows(docs: Collection, job: Job, leads: seq<Lead>, lead: Lead, touched: seq<string>,
                   groups: map<string, seq<Report>>)
    requires Grouped(docs, job, leads, touched, groups)
    requires lead.resolution.Matched? ==> lead.resolution.id in docs
    ensures Grouped(docs, job, leads + [lead], NextTouched(lead, touched, groups), NextGroups(docs, job, lead, groups))
  {
    if lead.resolution.Matched? {
      var id := lead.resolution.id;
      var report := ReportFrom(docs, job, lead, id)[0];
      TouchedGrows(touched, groups, id, report);
      forall i | i in docs ensures InGroup(docs, job, leads + [lead], Grown(groups, id, report), i) {
        InGroupGrows(docs, job, leads, lead, groups, report, i);
      }
    } else {
      forall i | i in docs ensures InGroup(docs, job, leads + [lead], groups, i) {
        assert InGroup(docs, job, leads, groups, i);
        ReportsGrow(docs, job, leads, lead, i);
      }
    }
  }

  /** What has been counted, held back and grouped once these leads are followed. */
  ghost predicate Sorted(docs: Collection, job: Job, leads: seq<Lead>, summary: Summary, held: set<string>,
                         touched: seq<string>, groups: map<string, seq<Report>>)
  {
    summary == Tally(leads) && held == HeldIds(leads) && Grouped(docs, job, leads, touched, groups)
  }

  /** What one more lead adds to a run's counts. */
  lemma TallyGrows(leads: seq<Lead>, lead: Lead)
    ensures Tally(leads + [lead]) == Noted(Tally(leads), lead.sighting, lead.resolution).(observed := Tally(leads).observed + 1)
    ensures HeldIds(leads + [lead]) == HeldIds(leads) + Undecided(lead.resolution)
  {
    assert (leads + [lead])[..|leads|] == leads;
  }

  /** Following one more lead. */
  lemma SortedGrows(docs: Collection, job: Job, leads: seq<Lead>, lead: Lead, summary: Summary, held: set<string>,
                    touched: seq<string>, groups: map<string, seq<Report>>)
    requires Sorted(docs, job, leads, summary, held, touched, groups)
    requires lead.resolution.Matched? ==> lead.resolution.id in docs
    ensures Sorted(docs, job, leads + [lead],
                   Noted(summary, lead.sighting, lead.resolution).(observed := summary.observed + 1),
                   held + Undecided(lead.resolution), NextTouched(lead, touched, groups),
                   NextGroups(docs, job, lead, groups))
  {
    TallyGrows(leads, lead);
    GroupGrows(docs, job, leads, lead, touched, groups);
  }

  lemma CandidatesExist(docs: Collection, order: seq<string>, query: Query)
    ensures forall id | id in First(Select(docs, order, query), 2) :: id in docs
  {
    SelectIsExact(docs, order, query);
  }

  lemma ResolvesInside(docs: Collection, order: seq<string>, reader: bool, sighting: Sighting)
    ensures var resolution := Resolve(docs, order, reader, sighting); resolution.Matched? ==> resolution.id in docs
  {
    CandidatesExist(docs, order, HostnameIs(sighting.observation.hostname));
  }

  /** What a group of matches decides about its server. */
  lemma GroupDecides(docs: Collection, job: Job, leads: seq<Lead>, touched: seq<string>,
                     groups: map<string, seq<Report>>, id: string)
    requires Grouped(docs, job, leads, touched, groups) && id in touched
    ensures id in docs && id in groups
    ensures Decided(docs, job, leads, id) == Chained(docs[id].openshift, Ordered(groups[id]))
  {
    assert id in IdSet(touched);
    assert InGroup(docs, job, leads, groups, id);
  }

  lemma SeenAreTouched(docs: Collection, job: Job, leads: seq<Lead>, touched: seq<string>,
                       groups: map<string, seq<Report>>)
    requires Grouped(docs, job, leads, touched, groups)
    ensures forall id | id in docs :: id in touched <==> ReportsOf(docs, job, leads, id) != []
    ensures forall id | id in touched :: id in docs
  {
    forall id | id in docs ensures id in touched <==> ReportsOf(docs, job, leads, id) != [] {
      assert InGroup(docs, job, leads, groups, id);
      assert id in touched <==> id in IdSet(touched);
    }
    forall id | id in touched ensures id in docs {
      assert id in IdSet(touched);
    }
  }

  /** The listing taken after the claims are written still finds every server in scope that
      was not claimed, and no new one. */
  lemma ScopeIsUnmoved(run: Run, claimed: seq<string>, touched: seq<string>, order: seq<string>,
                       scope: Query, inScope: seq<string>)
    requires Lists(order, run.docs) && forall id | id in claimed :: id in touched
    requires inScope == Select(Progress(run.docs, run.verdicts, run.now, run.dryRun, claimed), order, scope)
    ensures Distinct(inScope)
    ensures forall id | id in inScope :: id in run.docs
    ensures forall id | id in run.docs && id !in touched :: id in inScope <==> Hits(scope, run.docs[id])
  {
    var current := Progress(run.docs, run.verdicts, run.now, run.dryRun, claimed);
    SelectIsExact(current, order, scope);
    SelectHasNoRepeats(current, order, scope);
    forall id | id in run.docs && id !in touched ensures current[id] == run.docs[id] {
      RewritesAt(run.docs, run.verdicts, run.now, claimed, id);
    }
  }

  /** Which servers a run moved, and how the two halves of it add up. */
  lemma HalvesAddUp(docs: Collection, job: Job, leads: seq<Lead>, verdicts: Verdicts, now: Instant, dryRun: bool,
                    claimed: seq<string>, freed: seq<string>)
    requires verdicts == VerdictsOf(docs, job, leads)
    requires Distinct(claimed) && forall id :: id in claimed <==> id in docs && Claimed(docs, job, leads, id)
    requires Distinct(freed) && forall id :: id in freed <==> id in docs && Freed(docs, job, leads, id)
    ensures Progress(docs, verdicts, now, dryRun, claimed + freed) ==
            if dryRun then docs else Reconciled(docs, job, leads, now)
    ensures Recorded(Announced(docs, verdicts, dryRun, claimed + freed), docs,
                     Progress(docs, verdicts, now, dryRun, claimed + freed))
  {
    EveryMoveIsListed(docs, job, leads, verdicts, claimed + freed);
    EndsReconciled(docs, job, leads, verdicts, now, claimed + freed);
    JoinedDistinct(claimed, freed);
    if !dryRun { MovesAreRecorded(docs, verdicts, now, claimed + freed); }
  }

  lemma HalvesCount(docs: Collection, job: Job, leads: seq<Lead>, claimed: seq<string>, freed: seq<string>)
    requires Distinct(claimed) && forall id :: id in claimed <==> id in docs && Claimed(docs, job, leads, id)
    requires Distinct(freed) && forall id :: id in freed <==> id in docs && Freed(docs, job, leads, id)
    ensures |claimed| == |set id | id in docs && Claimed(docs, job, leads, id)|
    ensures |freed| == |set id | id in docs && Freed(docs, job, leads, id)|
  {
    DistinctCounts(claimed);
    DistinctCounts(freed);
    assert IdSet(claimed) == set id | id in docs && Claimed(docs, job, leads, id);
    assert IdSet(freed) == set id | id in docs && Freed(docs, job, leads, id);
  }

  lemma EveryMoveIsListed(docs: Collection, job: Job, leads: seq<Lead>, verdicts: Verdicts, moved: seq<string>)
    requires verdicts == VerdictsOf(docs, job, leads)
    requires forall id :: id in moved <==> id in docs && (Claimed(docs, job, leads, id) || Freed(docs, job, leads, id))
    ensures forall id | id in docs :: id in moved <==> Moves(docs, verdicts, id)
  {
  }

  lemma EndsReconciled(docs: Collection, job: Job, leads: seq<Lead>, verdicts: Verdicts, now: Instant, moved: seq<string>)
    requires verdicts == VerdictsOf(docs, job, leads)
    requires forall id | id in docs :: id in moved <==> Moves(docs, verdicts, id)
    ensures Rewrites(docs, verdicts, now, moved) == Reconciled(docs, job, leads, now)
  {
    var after, whole := Rewrites(docs, verdicts, now, moved), Reconciled(docs, job, leads, now);
    forall id | id in docs ensures after[id] == whole[id] {
      RewritesAt(docs, verdicts, now, moved, id);
    }
  }

  lemma StatesMoved(docs: Collection, verdicts: Verdicts, now: Instant, moved: seq<string>, id: string)
    requires id in docs && id in verdicts
    requires id in moved <==> Moves(docs, verdicts, id)
    ensures Rewrites(docs, verdicts, now, moved)[id].openshift.state == verdicts[id].state
  {
    RewritesAt(docs, verdicts, now, moved, id);
  }

  lemma MovesAreRecorded(docs: Collection, verdicts: Verdicts, now: Instant, moved: seq<string>)
    requires Distinct(moved) && docs.Keys == verdicts.Keys && (forall id | id in moved :: id in docs)
    requires forall id | id in docs :: id in moved <==> Moves(docs, verdicts, id)
    ensures Recorded(Changes(docs, verdicts, moved), docs, Rewrites(docs, verdicts, now, moved))
  {
    ChangesAreExact(docs, verdicts, moved);
    forall id | id in docs
      ensures Rewrites(docs, verdicts, now, moved)[id].openshift.state == verdicts[id].state
      ensures docs[id].openshift.state != verdicts[id].state ==>
                exists k :: 0 <= k < |Changes(docs, verdicts, moved)| && Changes(docs, verdicts, moved)[k].id == id
    {
      StatesMoved(docs, verdicts, now, moved, id);
      if docs[id].openshift.state != verdicts[id].state { EveryChangeIsListed(docs, verdicts, moved, id); }
    }
  }

  predicate Chains(run: Run, id: string, found: seq<Report>) {
    id in run.docs && id in run.verdicts && run.verdicts[id] == Chained(run.docs[id].openshift, Ordered(found))
  }

  predicate Frees(run: Run, id: string) {
    && id in run.docs && id in run.verdicts && run.verdicts[id] == UNCLAIMED
    && (run.docs[id].openshift.clusterName.Some? || run.docs[id].openshift.mceName.Some?)
  }

  class OpenShiftMembershipService {
    const repo: ServerRepository
    var trail: seq<StateChange>

    constructor (repo: ServerRepository)
      ensures this.repo == repo && trail == []
    {
      this.repo := repo;
      trail := [];
    }

    /** One page of the listing, from a position in it. */
    method ListPage(order: seq<string>, query: Query, cursor: nat, size: nat)
      returns (items: seq<string>, next: nat, hasMore: bool)
      requires cursor <= |order| && size > 0
      ensures items == First(Select(repo.docs, order[cursor..], query), size)
      ensures cursor <= next <= |order| && (items != [] ==> cursor < next)
      ensures items + Select(repo.docs, order[next..], query) == Select(repo.docs, order[cursor..], query)
      ensures hasMore <==> Select(repo.docs, order[next..], query) != []
    {
      items, next, hasMore := [], cursor, false;
      ghost var all := Select(repo.docs, order[cursor..], query);
      while next < |order|
        invariant cursor <= next <= |order| && |items| <= size && (items != [] ==> cursor < next)
        invariant items + Select(repo.docs, order[next..], query) == all
      {
        SelectAt(repo.docs, order, next, query);
        var id := order[next];
        var hit := id in repo.docs && Hits(query, repo.docs[id]);
        if hit && |items| == size { return items, next, true; }
        if hit { items := items + [id]; }
        next := next + 1;
      }
    }

    method FindByHostname(order: seq<string>, hostname: string) returns (ids: seq<string>)
      ensures ids == ByHostname(repo.docs, order, hostname)
    {
      var items, _, _ := ListPage(order, HostnameIs(hostname), 0, 2);
      assert order[0..] == order;
      return items;
    }

    method FindBySerial(order: seq<string>, serial: string) returns (id: Option<string>)
      ensures id == BySerial(repo.docs, order, serial)
    {
      var normalized := NormalizeText(serial);
      if normalized == "" { return None; }
      var ids, _, _ := ListPage(order, SerialIs(normalized), 0, 2);
      assert order[0..] == order;
      if |ids| > 1 { return None; }
      return if ids == [] then None else Some(ids[0]);
    }

    /** Every server in scope, across every page. */
    method ClaimedBy(order: seq<string>, scope: Scope) returns (found: seq<string>)
      ensures found == Select(repo.docs, order, scope)
    {
      found := [];
      var cursor, more := 0, true;
      assert order[0..] == order;
      ghost var all := Select(repo.docs, order, scope);
      ghost var rest := all;
      while more
        invariant cursor <= |order| && rest == Select(repo.docs, order[cursor..], scope)
        invariant all == found + rest && (!more ==> rest == [])
        decreases |order| - cursor, more
      {
        var items, next, hasMore := ListPage(order, scope, cursor, PAGE);
        rest := Select(repo.docs, order[next..], scope);
        assert all == found + (items + rest) == (found + items) + rest;
        found := found + items;
        cursor, more := next, hasMore;
      }
    }

    /** Resolve one sighting, noting in the summary and the protected ids what it found. */
    method ResolveSighting(order: seq<string>, reader: bool, sighting: Sighting, summary0: Summary, held0: set<string>)
      returns (matched: Option<(string, Option<string>)>, summary: Summary, held: set<string>)
      ensures var resolution := Resolve(repo.docs, order, reader, sighting);
              && matched == (if resolution.Matched? then Some((resolution.id, resolution.reportedName)) else None)
              && held == held0 + Undecided(resolution)
              // The caller counts the match itself.
              && summary == Noted(summary0, sighting, resolution).(matched := summary0.matched)
      ensures matched.Some? ==> matched.value.0 in repo.docs
    {
      var seen := sighting.observation;
      matched, summary, held := None, summary0, held0;
      CandidatesExist(repo.docs, order, HostnameIs(seen.hostname));
      if Truthy(seen.serial) {
        CandidatesExist(repo.docs, order, SerialIs(NormalizeText(seen.serial.value)));
        var id := FindBySerial(order, seen.serial.value);
        if id.Some? {
          var server := repo.docs[id.value];
          if seen.hostname == server.nameNormalized { return Some((id.value, None)), summary, held; }
          summary := summary.(matchedBySerial := summary.matchedBySerial + 1);
          return Some((id.value, Some(seen.hostname))), summary, held;
        }
        var candidates := FindByHostname(order, seen.hostname);
        if |candidates| == 1 { return Some((candidates[0], None)), summary, held; }
        summary := summary.(unmatched := summary.unmatched + [seen.hostname]);
        return;
      }

      var candidates := FindByHostname(order, seen.hostname);
      if |candidates| == 1 { return Some((candidates[0], None)), summary, held; }
      if !(reader && Truthy(seen.address)) {
        if candidates != [] { return Some((candidates[0], None)), summary, held; }
        summary := summary.(unmatched := summary.unmatched + [seen.hostname]);
        return;
      }
      if sighting.reading.None? {
        summary := summary.(unmatched := summary.unmatched + [seen.hostname]);
        summary := summary.(unresolved := summary.unresolved + [seen.hostname]);
        held := held + set id | id in candidates;
        return;
      }
      CandidatesExist(repo.docs, order, SerialIs(NormalizeText(sighting.reading.value)));
      var id := FindBySerial(order, sighting.reading.value);
      if id.None? {
        summary := summary.(unmatched := summary.unmatched + [seen.hostname]);
        return;
      }
      summary := summary.(matchedBySerial := summary.matchedBySerial + 1);
      matched := Some((id.value, Differing(seen.hostname, repo.docs[id.value])));
    }

    /** Store a membership that differs from the stored one, and say whether it does. No other writer runs. */
    method Write(id: string, updated: Lifecycle, dryRun: bool, now: Instant) returns (changed: bool)
      requires Keyed(repo.docs) && UniqueMachines(repo.docs) && id in repo.docs
      modifies repo, this`trail
      ensures changed == !SameMembership(old(repo.docs)[id].openshift, updated)
      ensures repo.docs == if dryRun || !changed then old(repo.docs)
                           else old(repo.docs)[id := Rewritten(old(repo.docs)[id], updated, now)]
      ensures Keyed(repo.docs) && UniqueMachines(repo.docs)
      ensures trail == old(trail) +
                       if dryRun || !changed then [] else StateEvent(id, old(repo.docs)[id].openshift, updated)
    {
      var server := repo.docs[id];
      var before := server.openshift;
      if SameMembership(before, updated) { return false; }
      if dryRun { return true; }
      var expectedRevision := server.revision;
      server := server.(openshift := updated);
      server := server.(revision := server.revision + 1);
      server := server.(updatedAt := now);
      RewriteFits(repo.docs, id, server);
      var outcome := repo.UpsertWithRevisionCheck(server, expectedRevision);
      if before.state != updated.state {
        trail := trail + [StateChange(id, before.state, updated.state)];
      }
      return true;
    }

    /** Chain one server's reports in memory and store where they end, in a single write. */
    method ApplyAll(id: string, found: seq<Report>, dryRun: bool, now: Instant) returns (changed: bool)
      requires Keyed(repo.docs) && UniqueMachines(repo.docs) && id in repo.docs
      modifies repo, this`trail
      ensures var updated := Chained(old(repo.docs)[id].openshift, Ordered(found));
              && changed == !SameMembership(old(repo.docs)[id].openshift, updated)
              && repo.docs == (if dryRun || !changed then old(repo.docs)
                               else old(repo.docs)[id := Rewritten(old(repo.docs)[id], updated, now)])
              && trail == old(trail) +
                          if dryRun || !changed then [] else StateEvent(id, old(repo.docs)[id].openshift, updated)
      ensures Keyed(repo.docs) && UniqueMachines(repo.docs)
    {
      var ordered := Ordered(found);
      var stored := repo.docs[id].openshift;
      var updated := stored;
      for i := 0 to |ordered|
        invariant updated == Chained(stored, ordered[..i])
      {
        assert ordered[..i + 1][..i] == ordered[..i];
        updated := Next(updated, ordered[i]);
      }
      assert ordered[..|ordered|] == ordered;
      changed := Write(id, updated, dryRun, now);
    }

    /** One run of a job: resolve, claim, then free by absence. */
    method Reconcile(order: seq<string>, job: Job, sightings: seq<Sighting>, dryRun: bool, now: Instant)
      returns (summary: Summary)
      requires Keyed(repo.docs) && UniqueMachines(repo.docs) && Lists(order, repo.docs)
      modifies repo, this`trail
      // A dry run writes nothing and still returns what the real run would.
      ensures var leads := Leads(old(repo.docs), order, job.reader, sightings);
              && summary == ReconcileSummary(old(repo.docs), job, leads)
              && repo.docs == if dryRun then old(repo.docs) else Reconciled(old(repo.docs), job, leads, now)
      ensures old(trail) <= trail && Recorded(trail[|old(trail)|..], old(repo.docs), repo.docs)
    {
      ghost var leads := Leads(repo.docs, order, job.reader, sightings);
      ghost var run := Run(repo.docs, VerdictsOf(repo.docs, job, leads), dryRun, now, trail);
      var held, touched, groups;
      summary, held, touched, groups := ResolveAll(order, job, sightings);
      TallyBalances(leads);
      SeenAreTouched(run.docs, job, leads, touched, groups);
      forall id | id in touched
        ensures id in groups && run.verdicts[id] == Chained(run.docs[id].openshift, Ordered(groups[id]))
      {
        GroupDecides(run.docs, job, leads, touched, groups, id);
      }
      ghost var claimed, freed;
      PickIsExact(touched, Movers(run));
      summary, claimed := ClaimAll(run, touched, groups, dryRun, now, summary);
      summary, freed := FreeAll(run, order, job.scope, claimed, held, touched, dryRun, now, summary);
      HalvesCount(run.docs, job, leads, claimed, freed);
      HalvesAddUp(run.docs, job, leads, run.verdicts, now, dryRun, claimed, freed);
      assert trail[|old(trail)|..] == Announced(run.docs, run.verdicts, dryRun, claimed + freed);
    }

    /** Resolve every sighting and group the matches by server, in order of first appearance. */
    method ResolveAll(order: seq<string>, job: Job, sightings: seq<Sighting>)
      returns (summary: Summary, held: set<string>, touched: seq<string>, groups: map<string, seq<Report>>)
      ensures Sorted(repo.docs, job, Leads(repo.docs, order, job.reader, sightings), summary, held, touched, groups)
    {
      summary, held, touched, groups := Summary(0, 0, 0, 0, [], 0, []), {}, [], map[];
      ghost var leads := Leads(repo.docs, order, job.reader, sightings);
      for i := 0 to |sightings|
        invariant Sorted(repo.docs, job, leads[..i], summary, held, touched, groups)
      {
        assert leads[..i + 1] == leads[..i] + [leads[i]];
        summary, held, touched, groups :=
          ResolveNext(order, job, sightings[i], summary, held, touched, groups, leads[..i]);
      }
      assert leads[..|sightings|] == leads;
    }

    method ResolveNext(order: seq<string>, job: Job, sighting: Sighting, summary0: Summary, held0: set<string>,
                       touched0: seq<string>, groups0: map<string, seq<Report>>, ghost leads: seq<Lead>)
      returns (summary: Summary, held: set<string>, touched: seq<string>, groups: map<string, seq<Report>>)
      requires Sorted(repo.docs, job, leads, summary0, held0, touched0, groups0)
      ensures Sorted(repo.docs, job, leads + [Lead(sighting, Resolve(repo.docs, order, job.reader, sighting))],
                     summary, held, touched, groups)
    {
      ghost var lead := Lead(sighting, Resolve(repo.docs, order, job.reader, sighting));
      ResolvesInside(repo.docs, order, job.reader, sighting);
      SortedGrows(repo.docs, job, leads, lead, summary0, held0, touched0, groups0);
      var matched;
      matched, summary, held := ResolveSighting(order, job.reader, sighting, summary0, held0);
      touched, groups := touched0, groups0;
      summary := summary.(observed := summary.observed + 1);
      if matched.Some? {
        var (id, reportedName) := matched.value;
        summary := summary.(matched := summary.matched + 1);
        var report := Report(sighting.observation, job.reportedBy, reportedName, repo.docs[id].name, sighting.at);
        if id !in groups { touched := touched + [id]; }
        groups := Grown(groups, id, report);
      }
    }

    /** Write every server the run saw, once each. */
    method ClaimAll(ghost run: Run, touched: seq<string>, groups: map<string, seq<Report>>, dryRun: bool,
                    now: Instant, summary0: Summary)
      returns (summary: Summary, ghost moved: seq<string>)
      requires Stands(run, [], repo.docs, trail) && run.dryRun == dryRun && run.now == now
      requires Distinct(touched) && summary0.claimed == 0
      requires forall id | id in touched :: id in groups && Chains(run, id, groups[id])
      modifies repo, this`trail
      ensures moved == Pick(touched, Movers(run)) && Stands(run, moved, repo.docs, trail)
      ensures summary == summary0.(claimed := |moved|)
    {
      summary, moved := summary0, [];
      for k := 0 to |touched|
        invariant moved == Pick(touched[..k], Movers(run)) && Stands(run, moved, repo.docs, trail)
        invariant summary == summary0.(claimed := |moved|)
      {
        var id := touched[k];
        PickGrows(touched, k, Movers(run));
        var changed := ClaimOne(run, moved, id, groups[id], dryRun, now);
        if changed {
          moved := moved + [id];
          summary := summary.(claimed := summary.claimed + 1);
        }
      }
      assert touched[..|touched|] == touched;
    }

    method ClaimOne(ghost run: Run, ghost moved: seq<string>, id: string, found: seq<Report>, dryRun: bool, now: Instant)
      returns (changed: bool)
      requires Stands(run, moved, repo.docs, trail) && run.dryRun == dryRun && run.now == now
      requires id !in moved && Chains(run, id, found)
      modifies repo, this`trail
      ensures changed == (id in Movers(run))
      ensures Stands(run, if changed then moved + [id] else moved, repo.docs, trail)
    {
      StepOn(run.docs, run.verdicts, now, dryRun, moved, id);
      changed := ApplyAll(id, found, dryRun, now);
    }

    /** Free every server in scope that the run neither saw nor protects. */
    method FreeAll(ghost run: Run, order: seq<string>, scope: Scope, ghost claimed: seq<string>, held: set<string>,
                   touched: seq<string>, dryRun: bool, now: Instant, summary0: Summary)
      returns (summary: Summary, ghost freed: seq<string>)
      requires Stands(run, claimed, repo.docs, trail) && run.dryRun == dryRun && run.now == now
      requires Lists(order, run.docs) && summary0.freed == 0
      requires forall id | id in claimed :: id in touched
      requires forall id | id in run.docs && id !in touched && id !in held && Hits(scope, run.docs[id]) ::
                 id in run.verdicts && run.verdicts[id] == UNCLAIMED
      modifies repo, this`trail
      ensures Stands(run, claimed + freed, repo.docs, trail)
      ensures Distinct(freed)
      ensures forall id :: id in freed <==> id in run.docs && id !in touched && id !in held && Hits(scope, run.docs[id])
      ensures summary == summary0.(freed := |freed|)
    {
      var inScope := ClaimedBy(order, scope);
      ScopeIsUnmoved(run, claimed, touched, order, scope, inScope);
      PickIsExact(inScope, IdSet(inScope) - IdSet(touched) - held);
      summary, freed := FreeListed(run, inScope, claimed, held, touched, dryRun, now, summary0);
    }

    method FreeListed(ghost run: Run, inScope: seq<string>, ghost claimed: seq<string>, held: set<string>,
                      touched: seq<string>, dryRun: bool, now: Instant, summary0: Summary)
      returns (summary: Summary, ghost freed: seq<string>)
      requires Stands(run, claimed, repo.docs, trail) && run.dryRun == dryRun && run.now == now
      requires Distinct(inScope) && summary0.freed == 0
      requires forall id | id in claimed :: id in touched
      requires forall id | id in inScope && id !in touched && id !in held :: Frees(run, id)
      modifies repo, this`trail
      ensures freed == Pick(inScope, IdSet(inScope) - IdSet(touched) - held)
      ensures Stands(run, claimed + freed, repo.docs, trail)
      ensures summary == summary0.(freed := |freed|)
    {
      summary, freed := summary0, [];
      ghost var moved, absent := claimed, IdSet(inScope) - IdSet(touched) - held;
      for k := 0 to |inScope|
        invariant freed == Pick(inScope[..k], absent)
        invariant moved == claimed + freed && Stands(run, moved, repo.docs, trail)
        invariant summary == summary0.(freed := |freed|)
      {
        var id := inScope[k];
        PickGrows(inScope, k, absent);
        if id !in touched && id !in held {
          JoinGrows(claimed, freed, id);
          var changed := FreeOne(run, moved, id, dryRun, now);
          moved, freed := moved + [id], freed + [id];
          if changed { summary := summary.(freed := summary.freed + 1); }
        }
      }
      assert inScope[..|inScope|] == inScope;
    }

    method FreeOne(ghost run: Run, ghost moved: seq<string>, id: string, dryRun: bool, now: Instant)
      returns (changed: bool)
      requires Stands(run, moved, repo.docs, trail) && run.dryRun == dryRun && run.now == now
      requires id !in moved && Frees(run, id)
      modifies repo, this`trail
      ensures changed && Stands(run, moved + [id], repo.docs, trail)
    {
      StepOn(run.docs, run.verdicts, now, dryRun, moved, id);
      changed := Write(id, UNCLAIMED, dryRun, now);
    }
  }
}
