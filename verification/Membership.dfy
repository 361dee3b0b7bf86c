/** What one report from a cluster does to the collection: the rules of `OpenShiftMembershipService`. */
module Membership {
  import opened Documents
  import opened Store
  import opened Claims
  import opened Convergence

  const PAGE := 500

  /** One observation, what reading the machine's serial over SSH would give, and the moment
      the observation is worked out. */
  datatype Sighting = Sighting(observation: Observation, reading: Option<string>, at: Instant)

  datatype Query = HostnameIs(hostname: string) | SerialIs(serial: string) | ClusterIs(cluster: string) | MceIs(mce: string)

  /** Where an observation leads. `held` are the candidates an unreadable serial leaves undecided. */
  datatype Resolution =
    | Matched(id: string, reportedName: Option<string>, bySerial: bool)
    | Missed(unreadable: bool, held: seq<string>)

  datatype Summary = Summary(
    observed: nat,
    matched: nat,
    claimed: nat,
    freed: nat,
    unmatched: seq<string>,
    matchedBySerial: nat,
    unresolved: seq<string>)

  predicate Hits(query: Query, server: Server) {
    match query
    case HostnameIs(hostname) => server.nameNormalized == hostname
    case SerialIs(serial) => server.identity.serialNormalized == serial
    case ClusterIs(cluster) => server.openshift.clusterName == Some(cluster)
    case MceIs(mce) => server.openshift.mceName == Some(mce)
  }

  /** The ids of the documents a query matches, in listing order. */
  function Select(docs: Collection, order: seq<string>, query: Query): seq<string> {
    if order == [] then []
    else (if order[0] in docs && Hits(query, docs[order[0]]) then [order[0]] else []) + Select(docs, order[1..], query)
  }

  ghost predicate Distinct(ids: seq<string>) {
    forall i, j | 0 <= i < j < |ids| :: ids[i] != ids[j]
  }

  ghost function IdSet(ids: seq<string>): set<string> {
    set id | id in ids
  }

  lemma DistinctGrows(ids: seq<string>, id: string)
    requires Distinct(ids) && id !in ids
    ensures Distinct(ids + [id])
  {
    forall i | 0 <= i < |ids| ensures ids[i] != id {
      assert ids[i] in ids;
    }
  }

  /** `order` lists the collection: every id once, sorted as the listing sorts them. */
  ghost predicate Lists(order: seq<string>, docs: Collection) {
    && Distinct(order)
    && (forall id :: id in docs <==> id in order)
  }

  function First(ids: seq<string>, n: nat): seq<string> {
    if |ids| <= n then ids else ids[..n]
  }

  function ByHostname(docs: Collection, order: seq<string>, hostname: string): seq<string> {
    First(Select(docs, order, HostnameIs(hostname)), 2)
  }

  /** The owner of a serial, provided no other server carries it too. */
  function BySerial(docs: Collection, order: seq<string>, serial: string): Option<string> {
    var normalized := NormalizeText(serial);
    var ids := First(Select(docs, order, SerialIs(normalized)), 2);
    if normalized != "" && |ids| == 1 then Some(ids[0]) else None
  }

  function Differing(hostname: string, server: Server): Option<string> {
    if hostname == server.nameNormalized then None else Some(hostname)
  }

  function Resolve(docs: Collection, order: seq<string>, reader: bool, sighting: Sighting): Resolution {
    var seen := sighting.observation;
    var candidates := ByHostname(docs, order, seen.hostname);
    if Truthy(seen.serial) then
      var id := BySerial(docs, order, seen.serial.value);
      if id.Some? && id.value in docs then
        var differing := Differing(seen.hostname, docs[id.value]);
        Matched(id.value, differing, differing.Some?)
      else if |candidates| == 1 then Matched(candidates[0], None, false)
      else Missed(false, [])
    else if |candidates| == 1 then Matched(candidates[0], None, false)
    else if !(reader && Truthy(seen.address)) then
      if candidates != [] then Matched(candidates[0], None, false) else Missed(false, [])
    else if sighting.reading.None? then Missed(true, candidates)
    else
      var id := BySerial(docs, order, sighting.reading.value);
      if id.Some? && id.value in docs then Matched(id.value, Differing(seen.hostname, docs[id.value]), true)
      else Missed(false, [])
  }

  function Noted(summary: Summary, sighting: Sighting, resolution: Resolution): Summary {
    match resolution
    case Matched(_, _, bySerial) =>
      summary.(matched := summary.matched + 1, matchedBySerial := summary.matchedBySerial + if bySerial then 1 else 0)
    case Missed(unreadable, _) =>
      summary.(
      unmatched := summary.unmatched + [sighting.observation.hostname],
      unresolved := summary.unresolved + if unreadable then [sighting.observation.hostname] else [])
  }

  /** The servers a job owns: those naming its cluster, or its MCE. */
  type Scope = query: Query | query.ClusterIs? || query.MceIs? witness ClusterIs("")

  datatype Job = Job(reportedBy: string, scope: Scope, reader: bool)

  /** A sighting and where it leads. */
  datatype Lead = Lead(sighting: Sighting, resolution: Resolution)

  function Leads(docs: Collection, order: seq<string>, reader: bool, sightings: seq<Sighting>): seq<Lead> {
    seq(|sightings|, i requires 0 <= i < |sightings| => Lead(sightings[i], Resolve(docs, order, reader, sightings[i])))
  }

  /** What the sightings of a run add up to before anything is written. */
  function Tally(leads: seq<Lead>): Summary {
    if leads == [] then Summary(0, 0, 0, 0, [], 0, [])
    else
      var last, before := leads[|leads| - 1], Tally(leads[..|leads| - 1]);
      Noted(before, last.sighting, last.resolution).(observed := before.observed + 1)
  }

  function Undecided(resolution: Resolution): set<string> {
    if resolution.Missed? then set id | id in resolution.held else {}
  }

  function HeldIds(leads: seq<Lead>): set<string> {
    if leads == [] then {} else HeldIds(leads[..|leads| - 1]) + Undecided(leads[|leads| - 1].resolution)
  }

  function ReportFrom(docs: Collection, job: Job, lead: Lead, id: string): seq<Report>
    requires id in docs
  {
    if lead.resolution.Matched? && lead.resolution.id == id
    then [Report(lead.sighting.observation, job.reportedBy, lead.resolution.reportedName, docs[id].name, lead.sighting.at)]
    else []
  }

  /** The reports one server receives in a run, in the order they were observed. */
  function ReportsOf(docs: Collection, job: Job, leads: seq<Lead>, id: string): seq<Report>
    requires id in docs
  {
    if leads == [] then []
    else ReportsOf(docs, job, leads[..|leads| - 1], id) + ReportFrom(docs, job, leads[|leads| - 1], id)
  }

  function Rewritten(server: Server, updated: Lifecycle, now: Instant): Server {
    if SameMembership(server.openshift, updated) then server
    else server.(openshift := updated, revision := server.revision + 1, updatedAt := now)
  }

  /** The membership a run works out for one server: the chained result of its reports; freed,
      if the run did not see it, it names this job and nothing protects it; else what it was. */
  function Decided(docs: Collection, job: Job, leads: seq<Lead>, id: string): Lifecycle
    requires id in docs
  {
    var reports := ReportsOf(docs, job, leads, id);
    if reports != [] then Chained(docs[id].openshift, Ordered(reports))
    else if Hits(job.scope, docs[id]) && id !in HeldIds(leads) then UNCLAIMED
    else docs[id].openshift
  }

  function Reconciled(docs: Collection, job: Job, leads: seq<Lead>, now: Instant): Collection {
    map id | id in docs :: Rewritten(docs[id], Decided(docs, job, leads, id), now)
  }

  predicate Claimed(docs: Collection, job: Job, leads: seq<Lead>, id: string)
    requires id in docs
  {
    && ReportsOf(docs, job, leads, id) != []
    && !SameMembership(docs[id].openshift, Decided(docs, job, leads, id))
  }

  predicate Freed(docs: Collection, job: Job, leads: seq<Lead>, id: string)
    requires id in docs
  {
    && ReportsOf(docs, job, leads, id) == []
    && Hits(job.scope, docs[id])
    && id !in HeldIds(leads)
  }

  function ReconcileSummary(docs: Collection, job: Job, leads: seq<Lead>): Summary {
    Tally(leads).(
    claimed := |set id | id in docs && Claimed(docs, job, leads, id)|,
    freed := |set id | id in docs && Freed(docs, job, leads, id)|)
  }

  lemma {:induction false} SelectIsExact(docs: Collection, order: seq<string>, query: Query)
    ensures forall id :: id in Select(docs, order, query) <==> id in order && id in docs && Hits(query, docs[id])
  {
    if order != [] { SelectIsExact(docs, order[1..], query); }
  }

  lemma {:induction false} SelectHasNoRepeats(docs: Collection, order: seq<string>, query: Query)
    requires Distinct(order)
    ensures Distinct(Select(docs, order, query))
  {
    if order != [] {
      SelectIsExact(docs, order[1..], query);
      SelectHasNoRepeats(docs, order[1..], query);
      var rest := Select(docs, order[1..], query);
      forall j | 0 <= j < |rest| ensures rest[j] != order[0] {
        assert rest[j] in rest;
      }
      assert Distinct([order[0]] + rest);
    }
  }

  /** A host is matched only on evidence: a serial exactly one server carries, a hostname
      exactly one server has, or, with no way to read a serial at all, the first of several
      servers sharing the hostname. */
  lemma MatchHasEvidence(docs: Collection, order: seq<string>, reader: bool, sighting: Sighting)
    requires Lists(order, docs)
    ensures var seen, resolution := sighting.observation, Resolve(docs, order, reader, sighting);
            resolution.Matched? ==>
              && resolution.id in docs
              && (|| (forall id | id in docs :: docs[id].nameNormalized == seen.hostname <==> id == resolution.id)
                  || (exists serial ::
                        && (seen.serial == Some(serial) || sighting.reading == Some(serial))
                        && NormalizeText(serial) != ""
                        && forall id | id in docs ::
                             docs[id].identity.serialNormalized == NormalizeText(serial) <==> id == resolution.id)
                  || (&& !Truthy(seen.serial) && !(reader && Truthy(seen.address))
                      && docs[resolution.id].nameNormalized == seen.hostname))
              && (resolution.reportedName.Some? <==>
                    resolution.bySerial && docs[resolution.id].nameNormalized != seen.hostname)
  {
    var seen := sighting.observation;
    SelectIsExact(docs, order, HostnameIs(seen.hostname));
    UniqueCandidate(docs, order, HostnameIs(seen.hostname));
    if Truthy(seen.serial) { UniqueCandidate(docs, order, SerialIs(NormalizeText(seen.serial.value))); }
    if sighting.reading.Some? { UniqueCandidate(docs, order, SerialIs(NormalizeText(sighting.reading.value))); }
  }

  lemma UniqueCandidate(docs: Collection, order: seq<string>, query: Query)
    requires Lists(order, docs)
    ensures var ids := First(Select(docs, order, query), 2);
            && (|ids| == 1 ==> forall id | id in docs :: Hits(query, docs[id]) <==> id == ids[0])
            && (forall id | id in ids :: id in docs && Hits(query, docs[id]))
            && |ids| <= 2
  {
    SelectIsExact(docs, order, query);
  }

  /** Only a duplicate hostname whose serial could not be read holds servers back, and then
      only the two candidates the lookup returned. */
  lemma HeldAreCandidates(docs: Collection, order: seq<string>, reader: bool, sighting: Sighting)
    requires Lists(order, docs)
    ensures var resolution := Resolve(docs, order, reader, sighting);
            resolution.Missed? && resolution.held != [] ==>
              && resolution.unreadable && |resolution.held| == 2
              && forall id | id in resolution.held :: id in docs && docs[id].nameNormalized == sighting.observation.hostname
  {
    UniqueCandidate(docs, order, HostnameIs(sighting.observation.hostname));
  }

  /** Every observation is either matched or listed as unmatched, and an unreadable serial is
      always also unmatched. */
  lemma {:induction false} TallyBalances(leads: seq<Lead>)
    ensures var summary := Tally(leads);
            && summary.observed == |leads|
            && summary.observed == summary.matched + |summary.unmatched|
            && multiset(summary.unresolved) <= multiset(summary.unmatched)
            && summary.matchedBySerial <= summary.matched
            && summary.claimed == summary.freed == 0
  {
    if leads != [] { TallyBalances(leads[..|leads| - 1]); }
  }

  /** A rewrite moves the membership, the revision and the stamp together, or nothing. */
  lemma RewriteIsExact(server: Server, updated: Lifecycle, now: Instant)
    ensures var after := Rewritten(server, updated, now);
            && (after == server <==> SameMembership(server.openshift, updated))
            && (after == server
                || after == server.(openshift := updated, revision := server.revision + 1, updatedAt := now))
            && (after != server ==> after.openshift == updated)
  {
    var after := Rewritten(server, updated, now);
    if !SameMembership(server.openshift, updated) { assert after.revision != server.revision; }
  }

  lemma DecidedAt(docs: Collection, job: Job, leads: seq<Lead>, id: string)
    requires id in docs
    ensures var before, updated := docs[id].openshift, Decided(docs, job, leads, id);
            && (!SameMembership(before, updated) <==> Claimed(docs, job, leads, id) || Freed(docs, job, leads, id))
            && (Freed(docs, job, leads, id) ==> updated == UNCLAIMED)
            && (Claimed(docs, job, leads, id) ==> updated == Chained(before, Ordered(ReportsOf(docs, job, leads, id))))
  {
  }

  /** A run moves no document by more than one revision, and touches nothing but membership:
      the servers it saw take the chained result of their reports, the ones in its scope that
      it neither saw nor protects are freed with their history, and every other one stays. */
  lemma WrittenAtMostOnce(docs: Collection, job: Job, leads: seq<Lead>, now: Instant, id: string)
    requires id in docs
    ensures var after := Reconciled(docs, job, leads, now);
            && after.Keys == docs.Keys
            && (after[id] == docs[id]
                || after[id] == docs[id].(openshift := after[id].openshift, revision := docs[id].revision + 1, updatedAt := now))
            && (after[id] != docs[id] <==> Claimed(docs, job, leads, id) || Freed(docs, job, leads, id))
            && (Freed(docs, job, leads, id) ==> after[id].openshift == UNCLAIMED)
            && (Claimed(docs, job, leads, id) ==>
                  after[id].openshift == Chained(docs[id].openshift, Ordered(ReportsOf(docs, job, leads, id))))
  {
    DecidedAt(docs, job, leads, id);
    RewriteIsExact(docs[id], Decided(docs, job, leads, id), now);
  }

  /** Two collections that differ in membership only. */
  ghost predicate OnlyMembershipMoved(docs: Collection, after: Collection) {
    && docs.Keys == after.Keys
    && forall id | id in docs ::
         && after[id].name == docs[id].name
         && after[id].nameNormalized == docs[id].nameNormalized
         && after[id].identity == docs[id].identity
  }

  /** A run decides which server a host is from names and serials alone. */
  lemma {:induction false} SelectIgnoresMembership(docs: Collection, after: Collection, order: seq<string>, query: Query)
    requires OnlyMembershipMoved(docs, after) && (query.HostnameIs? || query.SerialIs?)
    ensures Select(after, order, query) == Select(docs, order, query)
  {
    if order != [] { SelectIgnoresMembership(docs, after, order[1..], query); }
  }

  lemma SerialIgnoresMembership(docs: Collection, after: Collection, order: seq<string>, serial: string)
    requires OnlyMembershipMoved(docs, after)
    ensures BySerial(after, order, serial) == BySerial(docs, order, serial)
  {
    SelectIgnoresMembership(docs, after, order, SerialIs(NormalizeText(serial)));
  }

  lemma ResolveIgnoresMembership(docs: Collection, after: Collection, order: seq<string>, reader: bool,
                                 sighting: Sighting, again: Sighting)
    requires OnlyMembershipMoved(docs, after) && again == sighting.(at := again.at)
    ensures Resolve(after, order, reader, again) == Resolve(docs, order, reader, sighting)
  {
    var hostname, serial := sighting.observation.hostname, sighting.observation.serial;
    SelectIgnoresMembership(docs, after, order, HostnameIs(hostname));
    assert ByHostname(after, order, hostname) == ByHostname(docs, order, hostname);
    if serial.Some? { SerialIgnoresMembership(docs, after, order, serial.value); }
    if sighting.reading.Some? { SerialIgnoresMembership(docs, after, order, sighting.reading.value); }
  }

  /** The same observations, whenever they are worked out. */
  ghost predicate SameSightings(a: seq<Sighting>, b: seq<Sighting>) {
    |a| == |b| && forall i | 0 <= i < |a| :: b[i] == a[i].(at := b[i].at)
  }

  lemma {:induction false} RepeatSeesTheSame(docs: Collection, after: Collection, job: Job,
                                             leads: seq<Lead>, again: seq<Lead>, id: string)
    requires docs.Keys == after.Keys && id in docs && |leads| == |again|
    requires forall i | 0 <= i < |leads| :: again[i].resolution == leads[i].resolution
    ensures HeldIds(again) == HeldIds(leads)
    ensures ReportsOf(after, job, again, id) == [] <==> ReportsOf(docs, job, leads, id) == []
    decreases |leads|
  {
    if leads != [] {
      var n := |leads| - 1;
      RepeatSeesTheSame(docs, after, job, leads[..n], again[..n], id);
      assert again[n].resolution == leads[n].resolution;
    }
  }

  lemma ReconcileMovesMembership(docs: Collection, job: Job, leads: seq<Lead>, now: Instant)
    ensures OnlyMembershipMoved(docs, Reconciled(docs, job, leads, now))
  {
  }

  lemma LeadsRepeat(docs: Collection, after: Collection, order: seq<string>, reader: bool, sightings: seq<Sighting>,
                    again: seq<Sighting>)
    requires OnlyMembershipMoved(docs, after) && SameSightings(sightings, again)
    ensures var leads, later := Leads(docs, order, reader, sightings), Leads(after, order, reader, again);
            |later| == |leads| && forall i | 0 <= i < |leads| :: later[i].resolution == leads[i].resolution
  {
    forall i | 0 <= i < |sightings|
      ensures Resolve(after, order, reader, again[i]) == Resolve(docs, order, reader, sightings[i])
    {
      ResolveIgnoresMembership(docs, after, order, reader, sightings[i], again[i]);
    }
  }

  /** Repeating a run, on whatever the first run left, frees nobody. */
  lemma SecondRunFreesNone(docs: Collection, order: seq<string>, job: Job, sightings: seq<Sighting>, now: Instant,
                           again: seq<Sighting>)
    requires SameSightings(sightings, again)
    ensures var after := Reconciled(docs, job, Leads(docs, order, job.reader, sightings), now);
            ReconcileSummary(after, job, Leads(after, order, job.reader, again)).freed == 0
  {
    var leads := Leads(docs, order, job.reader, sightings);
    var after := Reconciled(docs, job, leads, now);
    var later := Leads(after, order, job.reader, again);
    ReconcileMovesMembership(docs, job, leads, now);
    LeadsRepeat(docs, after, order, job.reader, sightings, again);
    forall id | id in after ensures !Freed(after, job, later, id) {
      RepeatSeesTheSame(docs, after, job, leads, later, id);
      WrittenAtMostOnce(docs, job, leads, now, id);
    }
    assert (set id | id in after && Freed(after, job, later, id)) == {};
  }
}
