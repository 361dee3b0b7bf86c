/** Who claims a server: the claim-tracking part of the OpenShift membership service. */
module Claims {
  import opened Documents

  // How soon, in seconds, a displaced claim must return for the two to count as fighting.
  const CONTEST_WINDOW := 3600

  datatype Observation = Observation(
    hostname: string,
    state: OpenShiftState,
    clusterName: Option<string>,
    mceName: Option<string>,
    address: Option<string>,
    serial: Option<string>,
    agentUid: Option<string>)

  /** One observation as it is applied to one server. */
  datatype Report = Report(
    observation: Observation,
    reportedBy: string,
    reportedName: Option<string>,
    serverName: string,
    at: Instant)

  datatype ClaimTrack = ClaimTrack(
    previousReporter: Option<string>,
    previousAgentUid: Option<string>,
    claimChangedAt: Option<Instant>,
    contestedWith: Option<string>,
    contestedName: Option<string>)

  const NO_TRACK := ClaimTrack(None, None, None, None, None)

  /** What tells claims apart when Agents cannot: the job, and the cluster it names unless that is itself. */
  function ClaimKey(reporter: string, cluster: Option<string>): string {
    if cluster.None? || cluster.value == reporter then reporter else reporter + "/" + cluster.value
  }

  /** One job's claims are told apart by the cluster each names: naming none, or the job itself, is
      the job's own claim, and any two other clusters are two claims. */
  lemma KeysTellClaimsApart(reporter: string, c: string, d: string)
    requires c != reporter && d != reporter
    ensures ClaimKey(reporter, None) == ClaimKey(reporter, Some(reporter)) == reporter
    ensures ClaimKey(reporter, Some(c)) != ClaimKey(reporter, None)
    ensures ClaimKey(reporter, Some(c)) == ClaimKey(reporter, Some(d)) <==> c == d
  {
    var prefix := reporter + "/";
    assert (prefix + c)[|prefix|..] == c && (prefix + d)[|prefix|..] == d;
    assert |prefix + c| > |reporter|;
  }

  function OrEmpty(text: Option<string>): string {
    if text.Some? then text.value else ""
  }

  predicate SameClaimant(before: Lifecycle, reportedBy: string, cluster: Option<string>, agentUid: Option<string>) {
    if Truthy(before.agentUid) && Truthy(agentUid) then before.agentUid == agentUid
    else
      || ClaimKey(OrEmpty(before.reportedBy), before.clusterName) == ClaimKey(reportedBy, cluster)
      || (cluster.Some? && cluster == before.clusterName)
  }

  predicate Recent(since: Option<Instant>, now: Instant) {
    since.Some? && now - since.value < CONTEST_WINDOW
  }

  function Track(before: Lifecycle, reportedBy: string, cluster: Option<string>, now: Instant,
                 agentUid: Option<string>): ClaimTrack
  {
    if before.state == Available || !Truthy(before.reportedBy) then NO_TRACK
    else if Truthy(agentUid) && before.mceName.Some? && before.agentUid.None? && before.reportedBy == Some(reportedBy)
    then NO_TRACK // an entry from the time Agents went unnamed proves nothing
    else
      var held := ClaimKey(before.reportedBy.value, before.clusterName);
      var recent := Recent(before.claimChangedAt, now);
      if SameClaimant(before, reportedBy, cluster, agentUid) then
        var kept := recent && Truthy(before.contestedWith);
        ClaimTrack(before.previousReporter, before.previousAgentUid, before.claimChangedAt,
                   if kept then before.contestedWith else None,
                   if kept then before.contestedName else None)
      else
        var cameBack := if Truthy(before.previousAgentUid) && Truthy(agentUid)
                        then before.previousAgentUid == agentUid
                        else before.previousReporter == Some(ClaimKey(reportedBy, cluster));
        ClaimTrack(Some(held), before.agentUid, Some(now),
                   if cameBack && recent then Some(held) else None,
                   if cameBack && recent then before.reportedName else None)
  }

  /** The membership after one observation, not yet stored. */
  function Next(before: Lifecycle, report: Report): Lifecycle {
    var seen := report.observation;
    var track := Track(before, report.reportedBy, seen.clusterName, report.at, seen.agentUid);
    Lifecycle(
      seen.state, seen.clusterName, seen.mceName, Some(report.at), Some(report.reportedBy), report.reportedName,
      seen.agentUid, track.previousReporter, track.previousAgentUid, track.claimChangedAt, track.contestedWith,
      if Truthy(track.contestedWith) && !Truthy(track.contestedName) then Some(report.serverName)
      else track.contestedName)
  }

  /** What a write compares: everything but when, and by which job, the membership was reported. */
  predicate SameMembership(a: Lifecycle, b: Lifecycle) {
    && a.state == b.state
    && a.clusterName == b.clusterName
    && a.mceName == b.mceName
    && a.reportedName == b.reportedName
    && a.contestedWith == b.contestedWith
    && a.contestedName == b.contestedName
    && a.previousReporter == b.previousReporter
    && a.agentUid == b.agentUid
    && a.previousAgentUid == b.previousAgentUid
  }

  /** The memberships one run passes through for one server, chained in memory. */
  function Chained(before: Lifecycle, reports: seq<Report>): Lifecycle {
    if reports == [] then before
    else Next(Chained(before, reports[..|reports| - 1]), reports[|reports| - 1])
  }

  function Stored(before: Lifecycle, updated: Lifecycle): Lifecycle {
    if SameMembership(before, updated) then before else updated
  }
}
