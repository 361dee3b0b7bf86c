/** Which server a sighting leads to, said of the documents' names and serials, and what a run
    then does to the servers it sees, misses and protects. */
module Resolution {
  import opened Documents
  import opened Store
  import opened Claims
  import opened Convergence
  import opened Membership

  /** One server, and no other, has this hostname. */
  ghost predicate OnlyNamed(docs: Collection, hostname: string, id: string) {
    id in docs && forall d | d in docs :: docs[d].nameNormalized == hostname <==> d == id
  }

  ghost predicate Unnamed(docs: Collection, hostname: string) {
    forall d | d in docs :: docs[d].nameNormalized != hostname
  }

  /** Two servers, and no others, share this hostname. */
  ghost predicate TwoNamed(docs: Collection, hostname: string, a: string, b: string) {
    && a in docs && b in docs && a != b
    && forall d | d in docs :: docs[d].nameNormalized == hostname <==> d == a || d == b
  }

  /** One server, and no other, carries this serial. */
  ghost predicate Owns(docs: Collection, serial: string, id: string) {
    && NormalizeText(serial) != "" && id in docs
    && forall d | d in docs :: docs[d].identity.serialNormalized == NormalizeText(serial) <==> d == id
  }

  ghost predicate Unowned(docs: Collection, serial: string) {
    forall d :: !Owns(docs, serial, d)
  }

  /** The listing shows this server before any other with its hostname. */
  ghost predicate FirstNamed(docs: Collection, order: seq<string>, hostname: string, id: string) {
    && id in docs && docs[id].nameNormalized == hostname
    && exists k :: 0 <= k < |order| && order[k] == id && ComesFirst(docs, order, hostname, k)
  }

  ghost predicate ComesFirst(docs: Collection, order: seq<string>, hostname: string, k: nat)
    requires k < |order|
  {
    forall j | 0 <= j < k && order[j] in docs :: docs[order[j]].nameNormalized != hostname
  }

  lemma TwoApart(ids: seq<string>) returns (a: string, b: string)
    requires Distinct(ids) && |ids| > 1
    ensures a in ids && b in ids && a != b
  {
    a, b := ids[0], ids[1];
  }

  lemma OneHit(docs: Collection, order: seq<string>, query: Query, id: string)
    requires Lists(order, docs) && id in docs && forall d | d in docs :: Hits(query, docs[d]) <==> d == id
    ensures Select(docs, order, query) == [id]
  {
    SelectHasNoRepeats(docs, order, query);
    if |Select(docs, order, query)| > 1 {
      var a, b := TwoApart(Select(docs, order, query));
      SelectIsExact(docs, order, query);
      assert false;
    }
    SelectIsExact(docs, order, query);
    assert id in Select(docs, order, query);
  }

  lemma NoHit(docs: Collection, order: seq<string>, query: Query)
    requires forall d | d in docs :: !Hits(query, docs[d])
    ensures Select(docs, order, query) == []
  {
    var hits := Select(docs, order, query);
    if hits != [] {
      assert hits[0] in hits;
      SelectIsExact(docs, order, query);
      assert false;
    }
  }

  lemma {:induction false} FirstHit(docs: Collection, order: seq<string>, hostname: string, id: string, k: nat)
    requires id in docs && docs[id].nameNormalized == hostname
    requires k < |order| && order[k] == id && ComesFirst(docs, order, hostname, k)
    ensures Select(docs, order, HostnameIs(hostname)) != [] && Select(docs, order, HostnameIs(hostname))[0] == id
  {
    if k > 0 {
      assert order[0] in docs ==> docs[order[0]].nameNormalized != hostname;
      assert ComesFirst(docs, order[1..], hostname, k - 1) by {
        forall j | 0 <= j < k - 1 && order[1..][j] in docs ensures docs[order[1..][j]].nameNormalized != hostname {
          assert order[1..][j] == order[j + 1];
        }
      }
      FirstHit(docs, order[1..], hostname, id, k - 1);
    }
  }

  lemma SerialLeadsToOwner(docs: Collection, order: seq<string>, serial: string, id: string)
    requires Lists(order, docs) && Owns(docs, serial, id)
    ensures BySerial(docs, order, serial) == Some(id)
  {
    OneHit(docs, order, SerialIs(NormalizeText(serial)), id);
  }

  lemma NoOwnerNoServer(docs: Collection, order: seq<string>, serial: string)
    requires Lists(order, docs) && Unowned(docs, serial)
    ensures BySerial(docs, order, serial) == None
  {
    if BySerial(docs, order, serial).Some? {
      NamedIsOwner(docs, order, serial);
      assert false;
    }
  }

  lemma NamedIsOwner(docs: Collection, order: seq<string>, serial: string)
    requires Lists(order, docs) && BySerial(docs, order, serial).Some?
    ensures Owns(docs, serial, BySerial(docs, order, serial).value)
  {
    UniqueCandidate(docs, order, SerialIs(NormalizeText(serial)));
    var ids := First(Select(docs, order, SerialIs(NormalizeText(serial))), 2);
    assert ids[0] in ids;
  }

  lemma NameLeadsToNamesake(docs: Collection, order: seq<string>, hostname: string, id: string)
    requires Lists(order, docs) && OnlyNamed(docs, hostname, id)
    ensures ByHostname(docs, order, hostname) == [id]
  {
    OneHit(docs, order, HostnameIs(hostname), id);
  }

  lemma SeveralNamesakes(docs: Collection, order: seq<string>, hostname: string)
    requires Lists(order, docs) && forall d :: !OnlyNamed(docs, hostname, d)
    ensures |ByHostname(docs, order, hostname)| != 1
  {
    if |ByHostname(docs, order, hostname)| == 1 {
      var id := LoneNamesake(docs, order, hostname);
      assert false;
    }
  }

  lemma LoneNamesake(docs: Collection, order: seq<string>, hostname: string) returns (id: string)
    requires Lists(order, docs) && |ByHostname(docs, order, hostname)| == 1
    ensures OnlyNamed(docs, hostname, id)
  {
    UniqueCandidate(docs, order, HostnameIs(hostname));
    id := ByHostname(docs, order, hostname)[0];
    assert id in ByHostname(docs, order, hostname);
  }

  /** A sighting that carries a serial: its owner, under whatever name; else the one server of its
      hostname; else nobody, and nobody is protected. */
  lemma SerialComesFirst(docs: Collection, order: seq<string>, reader: bool, sighting: Sighting, id: string)
    requires Lists(order, docs) && Truthy(sighting.observation.serial)
    ensures var seen, resolution := sighting.observation, Resolve(docs, order, reader, sighting);
            && (Owns(docs, seen.serial.value, id) ==>
                  resolution == Matched(id,
                                        if docs[id].nameNormalized == seen.hostname then None else Some(seen.hostname),
                                        docs[id].nameNormalized != seen.hostname))
            && (Unowned(docs, seen.serial.value) && OnlyNamed(docs, seen.hostname, id) ==>
                  resolution == Matched(id, None, false))
            && (Unowned(docs, seen.serial.value) && (forall d :: !OnlyNamed(docs, seen.hostname, d)) ==>
                  resolution == Missed(false, []))
  {
    var seen := sighting.observation;
    if Owns(docs, seen.serial.value, id) {
      SerialLeadsToOwner(docs, order, seen.serial.value, id);
    } else if Unowned(docs, seen.serial.value) {
      NoOwnerNoServer(docs, order, seen.serial.value);
      if OnlyNamed(docs, seen.hostname, id) { NameLeadsToNamesake(docs, order, seen.hostname, id); }
      if forall d :: !OnlyNamed(docs, seen.hostname, d) { SeveralNamesakes(docs, order, seen.hostname); }
    }
  }

  /** A sighting without a serial: the one server of its hostname, whatever could be read of it;
      where nothing can be read, the first server listed under that hostname, or nobody. */
  lemma NameComesNext(docs: Collection, order: seq<string>, reader: bool, sighting: Sighting, id: string)
    requires Lists(order, docs) && !Truthy(sighting.observation.serial)
    ensures var seen, resolution := sighting.observation, Resolve(docs, order, reader, sighting);
            && (OnlyNamed(docs, seen.hostname, id) ==> resolution == Matched(id, None, false))
            && (!(reader && Truthy(seen.address)) && FirstNamed(docs, order, seen.hostname, id) ==>
                  resolution == Matched(id, None, false))
            && (!(reader && Truthy(seen.address)) && Unnamed(docs, seen.hostname) ==> resolution == Missed(false, []))
  {
    var seen := sighting.observation;
    if OnlyNamed(docs, seen.hostname, id) { NameLeadsToNamesake(docs, order, seen.hostname, id); }
    if FirstNamed(docs, order, seen.hostname, id) {
      var k :| 0 <= k < |order| && order[k] == id && ComesFirst(docs, order, seen.hostname, k);
      FirstHit(docs, order, seen.hostname, id, k);
    }
    if Unnamed(docs, seen.hostname) { NoHit(docs, order, HostnameIs(seen.hostname)); }
  }

  /** A sighting without a serial, of no unique hostname, whose serial is asked for over SSH: the
      owner of the serial read, or nobody; and if none could be read, nobody, protecting up to two
      servers of that hostname. */
  lemma ReadingComesLast(docs: Collection, order: seq<string>, sighting: Sighting, id: string)
    requires Lists(order, docs) && !Truthy(sighting.observation.serial) && Truthy(sighting.observation.address)
    requires forall d :: !OnlyNamed(docs, sighting.observation.hostname, d)
    ensures var seen, resolution := sighting.observation, Resolve(docs, order, true, sighting);
            && (sighting.reading.None? ==> resolution == Missed(true, ByHostname(docs, order, seen.hostname)))
            && (sighting.reading.Some? && Owns(docs, sighting.reading.value, id) ==>
                  resolution == Matched(id,
                                        if docs[id].nameNormalized == seen.hostname then None else Some(seen.hostname),
                                        true))
            && (sighting.reading.Some? && Unowned(docs, sighting.reading.value) ==> resolution == Missed(false, []))
  {
    SeveralNamesakes(docs, order, sighting.observation.hostname);
    if sighting.reading.Some? {
      if Owns(docs, sighting.reading.value, id) { SerialLeadsToOwner(docs, order, sighting.reading.value, id); }
      if Unowned(docs, sighting.reading.value) { NoOwnerNoServer(docs, order, sighting.reading.value); }
    }
  }

  lemma TwoHits(docs: Collection, order: seq<string>, hostname: string, a: string, b: string)
    requires Lists(order, docs) && TwoNamed(docs, hostname, a, b)
    ensures var ids := ByHostname(docs, order, hostname); a in ids && b in ids && |ids| == 2
  {
    var query := HostnameIs(hostname);
    SelectIsExact(docs, order, query);
    SelectHasNoRepeats(docs, order, query);
    var hits := Select(docs, order, query);
    assert a in hits && b in hits;
    if |hits| > 2 {
      assert hits[0] in hits && hits[1] in hits && hits[2] in hits;
      assert hits[0] != hits[1] && hits[1] != hits[2] && hits[0] != hits[2];
    }
  }

  lemma {:induction false} HeldByAnyLead(leads: seq<Lead>, i: nat)
    requires i < |leads|
    ensures Undecided(leads[i].resolution) <= HeldIds(leads)
  {
    if i < |leads| - 1 { HeldByAnyLead(leads[..|leads| - 1], i); }
  }

  /** A sighting that leaves two servers undecided: their shared hostname, no serial with it, and
      none to be read. */
  ghost predicate Ambiguous(docs: Collection, job: Job, sighting: Sighting, a: string, b: string) {
    && TwoNamed(docs, sighting.observation.hostname, a, b)
    && !Truthy(sighting.observation.serial)
    && job.reader && Truthy(sighting.observation.address) && sighting.reading == None
  }

  /** An ambiguous sighting protects both of its candidates, whatever else the run sees. */
  lemma BothCandidatesAreHeld(docs: Collection, order: seq<string>, job: Job, sightings: seq<Sighting>, i: nat, a: string,
                              b: string)
    requires Lists(order, docs) && i < |sightings| && Ambiguous(docs, job, sightings[i], a, b)
    ensures var held := HeldIds(Leads(docs, order, job.reader, sightings)); a in held && b in held
  {
    var seen, leads := sightings[i].observation, Leads(docs, order, job.reader, sightings);
    TwoHits(docs, order, seen.hostname, a, b);
    HeldByAnyLead(leads, i);
    forall d ensures !OnlyNamed(docs, seen.hostname, d) {}
    ReadingComesLast(docs, order, sightings[i], a);
  }

  lemma {:induction false} UnmatchedHasNoReports(docs: Collection, job: Job, leads: seq<Lead>, id: string)
    requires id in docs
    ensures ReportsOf(docs, job, leads, id) == [] <==>
              forall i | 0 <= i < |leads| :: !LeadsTo(leads[i], id)
  {
    if leads != [] {
      var n := |leads| - 1;
      UnmatchedHasNoReports(docs, job, leads[..n], id);
      assert forall i | 0 <= i < n :: leads[..n][i] == leads[i];
      if LeadsTo(leads[n], id) { assert |ReportFrom(docs, job, leads[n], id)| == 1; }
    }
  }

  predicate LeadsTo(lead: Lead, id: string) {
    lead.resolution.Matched? && lead.resolution.id == id
  }

  /** Neither candidate of an ambiguous sighting loses its membership over it: unless some sighting
      does lead to it, it stays just as it was, in scope or not. */
  lemma AmbiguousServersStay(docs: Collection, order: seq<string>, job: Job, sightings: seq<Sighting>, now: Instant, i: nat,
                             a: string, b: string, id: string)
    requires Lists(order, docs) && i < |sightings| && Ambiguous(docs, job, sightings[i], a, b)
    requires id == a || id == b
    requires forall k | 0 <= k < |sightings| :: !LeadsTo(Leads(docs, order, job.reader, sightings)[k], id)
    ensures Reconciled(docs, job, Leads(docs, order, job.reader, sightings), now)[id] == docs[id]
  {
    var leads := Leads(docs, order, job.reader, sightings);
    BothCandidatesAreHeld(docs, order, job, sightings, i, a, b);
    UnmatchedHasNoReports(docs, job, leads, id);
    WrittenAtMostOnce(docs, job, leads, now, id);
  }

  /** Whether a job owns a server: it stores the cluster, or the MCE, the job reports for. */
  ghost predicate InScope(scope: Scope, server: Server) {
    match scope
    case ClusterIs(cluster) => server.openshift.clusterName == Some(cluster)
    case MceIs(mce) => server.openshift.mceName == Some(mce)
  }

  /** A server no sighting leads to is freed if the job owns it and nothing protects it, and is
      otherwise left alone. */
  lemma AbsentExactly(docs: Collection, job: Job, leads: seq<Lead>, now: Instant, id: string)
    requires id in docs && forall k | 0 <= k < |leads| :: !LeadsTo(leads[k], id)
    ensures var after := Reconciled(docs, job, leads, now)[id];
            if InScope(job.scope, docs[id]) && id !in HeldIds(leads)
            then after == docs[id].(openshift := Lifecycle(Available, None, None, None, None, None, None, None, None, None, None, None),
                                    revision := docs[id].revision + 1, updatedAt := now)
            else after == docs[id]
  {
    UnmatchedHasNoReports(docs, job, leads, id);
    WrittenAtMostOnce(docs, job, leads, now, id);
    DecidedAt(docs, job, leads, id);
  }

  /** What one sighting reports of the server it leads to. */
  function SightingReport(docs: Collection, job: Job, lead: Lead, id: string): Report
    requires id in docs && LeadsTo(lead, id)
  {
    Report(lead.sighting.observation, job.reportedBy, lead.resolution.reportedName, docs[id].name, lead.sighting.at)
  }

  lemma {:induction false} OneLeadOneReport(docs: Collection, job: Job, leads: seq<Lead>, i: nat, id: string)
    requires id in docs && i < |leads| && LeadsTo(leads[i], id)
    requires forall k | 0 <= k < |leads| && k != i :: !LeadsTo(leads[k], id)
    ensures ReportsOf(docs, job, leads, id) == [SightingReport(docs, job, leads[i], id)]
  {
    var n := |leads| - 1;
    if i == n {
      UnmatchedHasNoReports(docs, job, leads[..n], id);
    } else {
      OneLeadOneReport(docs, job, leads[..n], i, id);
      assert !LeadsTo(leads[n], id);
    }
  }

  /** A server that exactly one sighting leads to takes that one observation, reported by this job
      under the name the sighting found it by. */
  lemma SeenOnceIsClaimed(docs: Collection, job: Job, leads: seq<Lead>, now: Instant, i: nat, id: string)
    requires id in docs && i < |leads| && LeadsTo(leads[i], id)
    requires forall k | 0 <= k < |leads| && k != i :: !LeadsTo(leads[k], id)
    ensures var after := Reconciled(docs, job, leads, now)[id].openshift;
            var seen := leads[i].sighting.observation;
            && after.state == seen.state && after.clusterName == seen.clusterName && after.mceName == seen.mceName
            && after.agentUid == seen.agentUid && after.reportedName == leads[i].resolution.reportedName
            && (after == docs[id].openshift
                || (after.reportedBy == Some(job.reportedBy) && after.lastReportedAt == Some(leads[i].sighting.at)))
  {
    OneLeadOneReport(docs, job, leads, i, id);
    var report := SightingReport(docs, job, leads[i], id);
    var found := [report];
    assert found[..0] == [];
    assert Keep(found, false) + Keep(found, true) == found by {
      assert Keep(found[..0], false) == [] && Keep(found[..0], true) == [];
    }
    assert Chained(docs[id].openshift, found) == Next(docs[id].openshift, report);
    DecidedAt(docs, job, leads, id);
    RewriteIsExact(docs[id], Decided(docs, job, leads, id), now);
  }

  datatype Kind = AMatch | ASerialMatch | AMiss | AnUnreadable

  predicate IsKind(lead: Lead, kind: Kind, hostname: string) {
    match kind
    case AMatch => lead.resolution.Matched?
    case ASerialMatch => lead.resolution.Matched? && lead.resolution.bySerial
    case AMiss => lead.resolution.Missed? && lead.sighting.observation.hostname == hostname
    case AnUnreadable =>
      lead.resolution.Missed? && lead.resolution.unreadable && lead.sighting.observation.hostname == hostname
  }

  ghost function OfKind(leads: seq<Lead>, kind: Kind, hostname: string): set<nat> {
    set i: nat | i < |leads| && IsKind(leads[i], kind, hostname)
  }

  lemma OfKindGrows(leads: seq<Lead>, lead: Lead, kind: Kind, hostname: string)
    ensures |OfKind(leads + [lead], kind, hostname)| ==
            |OfKind(leads, kind, hostname)| + if IsKind(lead, kind, hostname) then 1 else 0
  {
    assert OfKind(leads + [lead], kind, hostname) ==
           OfKind(leads, kind, hostname) + if IsKind(lead, kind, hostname) then {|leads|} else {};
  }

  lemma NotedCounts(summary: Summary, lead: Lead, hostname: string)
    ensures var after := Noted(summary, lead.sighting, lead.resolution);
            && after.matched == summary.matched + (if IsKind(lead, AMatch, hostname) then 1 else 0)
            && after.matchedBySerial == summary.matchedBySerial + (if IsKind(lead, ASerialMatch, hostname) then 1 else 0)
            && multiset(after.unmatched)[hostname] ==
               multiset(summary.unmatched)[hostname] + (if IsKind(lead, AMiss, hostname) then 1 else 0)
            && multiset(after.unresolved)[hostname] ==
               multiset(summary.unresolved)[hostname] + (if IsKind(lead, AnUnreadable, hostname) then 1 else 0)
  {
  }

  /** What the summary counts: sightings matched, by serial where that is worth telling, and for
      every hostname how often it was seen and not matched, or not readable. */
  lemma {:induction false} SummaryCounts(leads: seq<Lead>, hostname: string)
    ensures var summary := Tally(leads);
            && summary.matched == |OfKind(leads, AMatch, hostname)|
            && summary.matchedBySerial == |OfKind(leads, ASerialMatch, hostname)|
            && multiset(summary.unmatched)[hostname] == |OfKind(leads, AMiss, hostname)|
            && multiset(summary.unresolved)[hostname] == |OfKind(leads, AnUnreadable, hostname)|
  {
    if leads == [] {
      forall kind ensures OfKind(leads, kind, hostname) == {} {}
    } else {
      var before, last := leads[..|leads| - 1], leads[|leads| - 1];
      assert leads == before + [last];
      SummaryCounts(before, hostname);
      NotedCounts(Tally(before), last, hostname);
      OfKindGrows(before, last, AMatch, hostname);
      OfKindGrows(before, last, ASerialMatch, hostname);
      OfKindGrows(before, last, AMiss, hostname);
      OfKindGrows(before, last, AnUnreadable, hostname);
    }
  }
}
