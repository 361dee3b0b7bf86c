/** A job that keeps running: what repeated runs over the whole collection do to one server. */
module Repetition {
  import opened Documents
  import opened Store
  import opened Claims
  import opened Convergence
  import opened Membership

  /** One run: what it sees, with the moment each observation is worked out, and when it writes. */
  datatype Pass = Pass(sightings: seq<Sighting>, now: Instant)

  /** Every run sees what the first one saw. */
  ghost predicate Repeats(first: seq<Sighting>, passes: seq<Pass>) {
    forall i | 0 <= i < |passes| :: SameSightings(first, passes[i].sightings)
  }

  function Once(docs: Collection, order: seq<string>, job: Job, pass: Pass): (after: Collection)
    ensures after.Keys == docs.Keys
  {
    Reconciled(docs, job, Leads(docs, order, job.reader, pass.sightings), pass.now)
  }

  function AfterPasses(docs: Collection, order: seq<string>, job: Job, passes: seq<Pass>): (after: Collection)
    ensures after.Keys == docs.Keys
    decreases |passes|
  {
    if passes == [] then docs else AfterPasses(Once(docs, order, job, passes[0]), order, job, passes[1..])
  }

  function ReportsIn(docs: Collection, order: seq<string>, job: Job, sightings: seq<Sighting>, id: string): seq<Report>
    requires id in docs
  {
    ReportsOf(docs, job, Leads(docs, order, job.reader, sightings), id)
  }

  function TimesOf(reports: seq<Report>): seq<Instant> {
    seq(|reports|, i requires 0 <= i < |reports| => reports[i].at)
  }

  /** When each run works out its reports of a server, in the order it applies them. */
  function Pace(docs: Collection, order: seq<string>, job: Job, passes: seq<Pass>, id: string): seq<seq<Instant>>
    requires id in docs
    decreases |passes|
  {
    if passes == [] then []
    else [TimesOf(Ordered(ReportsIn(docs, order, job, passes[0].sightings, id)))] + Pace(docs, order, job, passes[1..], id)
  }

  /** The same reports, whenever they are worked out. */
  predicate SameReports(a: seq<Report>, b: seq<Report>) {
    |a| == |b| && forall i | 0 <= i < |a| :: b[i] == a[i].(at := b[i].at)
  }

  /** A run's reports of a server do not depend on any membership. */
  lemma {:induction false} ReportsIgnoreMembership(docs: Collection, after: Collection, job: Job, leads: seq<Lead>,
                                                   later: seq<Lead>, id: string)
    requires OnlyMembershipMoved(docs, after) && id in docs && |later| == |leads|
    requires forall i | 0 <= i < |leads| :: Repeated(leads[i], later[i])
    ensures SameReports(ReportsOf(docs, job, leads, id), ReportsOf(after, job, later, id))
    ensures leads == later ==> ReportsOf(docs, job, leads, id) == ReportsOf(after, job, later, id)
    decreases |leads|
  {
    if leads != [] {
      var n := |leads| - 1;
      ReportsIgnoreMembership(docs, after, job, leads[..n], later[..n], id);
      assert Repeated(leads[n], later[n]);
    }
  }

  /** One lead followed again, later. */
  predicate Repeated(lead: Lead, again: Lead) {
    again.resolution == lead.resolution && again.sighting == lead.sighting.(at := again.sighting.at)
  }

  lemma RunsSeeTheSame(docs: Collection, after: Collection, order: seq<string>, job: Job, first: seq<Sighting>,
                       again: seq<Sighting>, id: string)
    requires OnlyMembershipMoved(docs, after) && id in docs && SameSightings(first, again)
    ensures SameReports(ReportsIn(docs, order, job, first, id), ReportsIn(after, order, job, again, id))
  {
    var leads, later := Leads(docs, order, job.reader, first), Leads(after, order, job.reader, again);
    LeadsRepeat(docs, after, order, job.reader, first, again);
    forall i | 0 <= i < |leads| ensures Repeated(leads[i], later[i]) {
      assert later[i].resolution == leads[i].resolution;
    }
    ReportsIgnoreMembership(docs, after, job, leads, later, id);
  }

  lemma RunsSeeJustTheSame(docs: Collection, after: Collection, order: seq<string>, job: Job, sightings: seq<Sighting>, id: string)
    requires OnlyMembershipMoved(docs, after) && id in docs
    ensures ReportsIn(after, order, job, sightings, id) == ReportsIn(docs, order, job, sightings, id)
  {
    var leads, later := Leads(docs, order, job.reader, sightings), Leads(after, order, job.reader, sightings);
    LeadsRepeat(docs, after, order, job.reader, sightings, sightings);
    forall i | 0 <= i < |leads| ensures Repeated(leads[i], later[i]) && leads[i] == later[i] {
      assert later[i].resolution == leads[i].resolution;
    }
    assert leads == later;
    ReportsIgnoreMembership(docs, after, job, leads, later, id);
  }

  lemma {:induction false} KeptTheSame(a: seq<Report>, b: seq<Report>, bound: bool)
    requires SameReports(a, b)
    ensures SameReports(Keep(a, bound), Keep(b, bound))
    decreases |a|
  {
    if a != [] { KeptTheSame(a[..|a| - 1], b[..|b| - 1], bound); }
  }

  lemma OrderedTheSame(a: seq<Report>, b: seq<Report>)
    requires SameReports(a, b)
    ensures Ordered(b) == Timed(Ordered(a), TimesOf(Ordered(b)))
  {
    KeptTheSame(a, b, false);
    KeptTheSame(a, b, true);
  }

  /** A run over the collection is, for one server it sees, one run of its reports. */
  lemma OnceIsOneRun(docs: Collection, order: seq<string>, job: Job, found: seq<Report>, pass: Pass, id: string)
    requires id in docs && found != []
    requires SameReports(found, ReportsIn(docs, order, job, pass.sightings, id))
    ensures var times := TimesOf(Ordered(ReportsIn(docs, order, job, pass.sightings, id)));
            var after := Once(docs, order, job, pass)[id];
            && |times| == |found|
            && after.openshift == RunOnce(docs[id].openshift, found, times)
            && after.revision == docs[id].revision + if Writes(docs[id].openshift, found, times) then 1 else 0
  {
    var reports := ReportsIn(docs, order, job, pass.sightings, id);
    var leads := Leads(docs, order, job.reader, pass.sightings);
    OrderedTheSame(found, reports);
    DecidedAt(docs, job, leads, id);
    assert Decided(docs, job, leads, id) == Chained(docs[id].openshift, Ordered(reports));
    RewriteIsExact(docs[id], Decided(docs, job, leads, id), pass.now);
  }

  lemma {:induction false} PaceIgnoresMembership(docs: Collection, after: Collection, order: seq<string>, job: Job,
                                                 passes: seq<Pass>, id: string)
    requires OnlyMembershipMoved(docs, after) && id in docs
    ensures Pace(after, order, job, passes, id) == Pace(docs, order, job, passes, id)
    decreases |passes|
  {
    if passes != [] {
      RunsSeeJustTheSame(docs, after, order, job, passes[0].sightings, id);
      PaceIgnoresMembership(docs, after, order, job, passes[1..], id);
    }
  }

  /** A document's revision counts exactly the writes that repeating the reports of its server
      causes, and its membership is what those runs leave. */
  lemma {:induction false} RevisionsCountWrites(docs: Collection, order: seq<string>, job: Job, first: seq<Sighting>,
                                                found: seq<Report>, passes: seq<Pass>, id: string)
    requires id in docs && found != [] && Repeats(first, passes)
    requires SameReports(found, ReportsIn(docs, order, job, first, id))
    ensures var pace, after := Pace(docs, order, job, passes, id), AfterPasses(docs, order, job, passes)[id];
            && Runs(found, pace) && |pace| == |passes|
            && after.revision == docs[id].revision + WriteCount(docs[id].openshift, found, pace)
            && after.openshift == AfterRuns(docs[id].openshift, found, pace)
    decreases |passes|
  {
    if passes != [] {
      var pass, rest := passes[0], passes[1..];
      RunsSeeTheSame(docs, docs, order, job, first, pass.sightings, id);
      OnceIsOneRun(docs, order, job, found, pass, id);
      var after := Once(docs, order, job, pass);
      ReconcileMovesMembership(docs, job, Leads(docs, order, job.reader, pass.sightings), pass.now);
      RunsSeeJustTheSame(docs, after, order, job, first, id);
      PaceIgnoresMembership(docs, after, order, job, rest, id);
      forall i | 0 <= i < |rest| ensures SameSightings(first, rest[i].sightings) {
        assert rest[i] == passes[i + 1];
      }
      RevisionsCountWrites(after, order, job, first, found, rest, id);
      var pace := Pace(docs, order, job, passes, id);
      assert pace[1..] == Pace(docs, order, job, rest, id);
    }
  }

  /** Repeating a job's run moves a server it sees by at most two revisions, if it sees it through
      one Agent or through three and more; through two, from unclaimed, exactly while no later run
      that kept within the hour is followed by one that did not. */
  lemma RepeatedReconcilesWriteTwice(docs: Collection, order: seq<string>, job: Job, first: seq<Sighting>,
                                     passes: seq<Pass>, id: string)
    requires id in docs && Repeats(first, passes)
    requires var found := ReportsIn(docs, order, job, first, id);
             found != [] && Agents(found, job.reportedBy, docs[id].name)
    ensures var found, pace := ReportsIn(docs, order, job, first, id), Pace(docs, order, job, passes, id);
            var after := AfterPasses(docs, order, job, passes)[id];
            && Runs(found, pace) && |pace| == |passes|
            && (|found| != 2 ==> after.revision <= docs[id].revision + 2)
            && (|found| == 2 && passes != [] && docs[id].openshift == UNCLAIMED ==>
                  (after.revision <= docs[id].revision + 2 <==> NeverSlowsDown(pace[1..])))
            && (passes != [] ==>
                  (after.openshift.state == Installed <==> exists r :: r in found && r.observation.state == Installed))
  {
    var found, pace := ReportsIn(docs, order, job, first, id), Pace(docs, order, job, passes, id);
    RevisionsCountWrites(docs, order, job, first, found, passes, id);
    if |found| != 2 {
      RepeatedRunsWriteTwice(docs[id].openshift, found, pace, job.reportedBy, docs[id].name);
    } else if passes != [] && docs[id].openshift == UNCLAIMED {
      TwoWritesExactlyWhen(found, pace, job.reportedBy, docs[id].name);
    }
    if passes != [] { BoundMeansInstalled(docs[id].openshift, found, pace); }
  }

  lemma AbsentStays(docs: Collection, order: seq<string>, job: Job, pass: Pass, id: string)
    requires id in docs && ReportsIn(docs, order, job, pass.sightings, id) == []
    ensures var after := Once(docs, order, job, pass)[id];
            && after.revision <= docs[id].revision + 1
            && (!Hits(job.scope, docs[id]) ==> after == docs[id])
            && (after != docs[id] ==> after.openshift == UNCLAIMED && !Hits(job.scope, after))
  {
    var leads := Leads(docs, order, job.reader, pass.sightings);
    WrittenAtMostOnce(docs, job, leads, pass.now, id);
  }

  /** A server the job does not see is written at most once, when it is freed. */
  lemma {:induction false} AbsentIsFreedOnce(docs: Collection, order: seq<string>, job: Job, first: seq<Sighting>,
                                             passes: seq<Pass>, id: string)
    requires id in docs && Repeats(first, passes) && ReportsIn(docs, order, job, first, id) == []
    ensures var after := AfterPasses(docs, order, job, passes)[id];
            && after.revision <= docs[id].revision + 1
            && (!Hits(job.scope, docs[id]) ==> after == docs[id])
    decreases |passes|
  {
    if passes != [] {
      var pass, rest := passes[0], passes[1..];
      RunsSeeTheSame(docs, docs, order, job, first, pass.sightings, id);
      AbsentStays(docs, order, job, pass, id);
      var after := Once(docs, order, job, pass);
      ReconcileMovesMembership(docs, job, Leads(docs, order, job.reader, pass.sightings), pass.now);
      RunsSeeJustTheSame(docs, after, order, job, first, id);
      forall i | 0 <= i < |rest| ensures SameSightings(first, rest[i].sightings) {
        assert rest[i] == passes[i + 1];
      }
      AbsentIsFreedOnce(after, order, job, first, rest, id);
    }
  }
}
