/** Which servers may be handed out: the query that draws them, the predicate that rechecks
    them, and the reasons given when one is refused. */
module Availability {
  import opened Documents
  import opened Filters

  const SELECTABLE_TIERS: seq<HealthSeverity> := [Healthy, Warning, Major]
  const REQUIRED_NETWORK_HEALTH := Healthy

  /** What a lookup asks of a candidate, besides its name. */
  datatype Demand = Demand(tiers: seq<HealthSeverity>, minNicMacs: int)

  /** The server a document loads as: retired values decoded, missing fields defaulted. */
  function Load(raw: Raw): Server {
    raw.rest.(
    openshift := raw.rest.openshift.(state := if raw.state.Some? && raw.state.value.StateNow? then raw.state.value.state else Available),
    maintenance := raw.rest.maintenance.(enabled := raw.inMaintenance == Some(true)),
    reachable := raw.reachable != Some(false),
    health := raw.rest.health.(overall := Decoded(raw.overall), network := Decoded(raw.network)),
    identity := raw.rest.identity.(nicMacs := if raw.nicMacs.Some? then raw.nicMacs.value else []),
    unreadFields := if raw.unread.Some? then raw.unread.value else [],
    reservation := raw.rest.reservation.(holder := raw.holder, expiresAt := raw.expiresAt))
  }

  function Decoded(word: Option<SeverityWord>): HealthSeverity {
    match word
    case None => Unknown
    case Some(InfoRetired) => Healthy
    case Some(SeverityNow(severity)) => severity
  }

  /** How a document loads: what it spells in today's values is kept, a retired state is available
      and a retired severity healthy, and what is missing is available, out of maintenance,
      reachable, of unknown health, without MACs, with nothing unread and unreserved. */
  lemma LoadsAsSpelled(raw: Raw, state: OpenShiftState, severity: HealthSeverity)
    ensures var server := Load(raw);
            && (raw.state == Some(StateNow(state)) ==> server.openshift.state == state)
            && (raw.state == None || raw.state.value.StateRetired? ==> server.openshift.state == Available)
            && (raw.overall == Some(SeverityNow(severity)) ==> server.health.overall == severity)
            && (raw.overall == Some(InfoRetired) ==> server.health.overall == Healthy)
            && (raw.overall == None ==> server.health.overall == Unknown)
            && (raw.network == Some(SeverityNow(severity)) ==> server.health.network == severity)
            && (raw.network == None ==> server.health.network == Unknown)
            && server.maintenance.enabled == (raw.inMaintenance.Some? && raw.inMaintenance.value)
            && server.reachable == (raw.reachable.None? || raw.reachable.value)
            && (raw.nicMacs != None ==> server.identity.nicMacs == raw.nicMacs.value)
            && (raw.nicMacs == None ==> server.identity.nicMacs == [])
            && (raw.unread != None ==> server.unreadFields == raw.unread.value)
            && (raw.unread == None ==> server.unreadFields == [])
            && server.reservation.holder == raw.holder && server.reservation.expiresAt == raw.expiresAt
  {
    assert raw.inMaintenance.Some? ==> raw.inMaintenance == Some(raw.inMaintenance.value);
    assert raw.reachable.Some? ==> raw.reachable == Some(raw.reachable.value);
  }

  /** What a demand for NIC MACs adds to a query: enough of them, and from this run. */
  function NicMacFilters(minNicMacs: int): Filter {
    if minNicMacs < 1 then Filter([])
    else Filter([On(NicMacPath(minNicMacs - 1), Exists), On(UnreadPath, NotEquals(FieldName(NicMacs)))])
  }

  /** The two ways a lock can be live: it never expires, or it has not yet. */
  function LiveLocks(now: Instant): seq<Filter> {
    [Filter([On(HolderPath, NotNull), On(ExpiryPath, IsNull)]),
     Filter([On(HolderPath, NotNull), On(ExpiryPath, Greater(Moment(now)))])]
  }

  function UnreservedFilters(now: Instant): Filter {
    Filter([Nor(LiveLocks(now))])
  }

  function StatusFilters(): Filter {
    Filter([On(StatePath, Equals(State(StateNow(Available)))),
            On(MaintenancePath, Equals(Flag(false))),
            On(ReachablePath, Equals(Flag(true))),
            On(NetworkPath, Equals(Severity(SeverityNow(REQUIRED_NETWORK_HEALTH))))])
  }

  /** The filter of a draw, before any health tier. */
  function AssignableFilters(base: Filter, demand: Demand, now: Instant): Filter {
    Merged(Merged(Merged(base, StatusFilters()), NicMacFilters(demand.minNicMacs)), UnreservedFilters(now))
  }

  function Severities(tiers: seq<HealthSeverity>): seq<Value> {
    seq(|tiers|, i requires 0 <= i < |tiers| => Severity(SeverityNow(tiers[i])))
  }

  function TierFilter(tiers: seq<HealthSeverity>): Filter {
    Only(OverallPath, OneOf(Severities(tiers)))
  }

  function FullQuery(base: Filter, demand: Demand, now: Instant): Filter {
    Merged(AssignableFilters(base, demand, now), TierFilter(demand.tiers))
  }

  /** The filters a caller brings name only questions, or alternatives of them. */
  ghost predicate IsBase(base: Filter) {
    forall c | c in base.clauses :: (c.On? && c.path.OtherPath?) || c.Or?
  }

  predicate NicMacsShort(server: Server, minNicMacs: int) {
    minNicMacs >= 1 && (|server.identity.nicMacs| < minNicMacs || NicMacs in server.unreadFields)
  }

  predicate StillQualifies(server: Server, demand: Demand, now: Instant) {
    && !NicMacsShort(server, demand.minNicMacs)
    && server.openshift.state == Available
    && !server.maintenance.enabled
    && server.reachable
    && server.health.overall in demand.tiers
    && server.health.network == REQUIRED_NETWORK_HEALTH
    && !server.reservation.IsLive(now)
  }

  datatype Reason = InstalledElsewhere | ClaimedByMce | InMaintenance | Unreachable | Reserved | HealthTier | NetworkHealth | NicMacsUnread

  function ReasonIf(applies: bool, reason: Reason): seq<Reason> {
    if applies then [reason] else []
  }

  /** One code per failed condition, most decisive first. */
  function Reasons(server: Server, demand: Demand, now: Instant): seq<Reason> {
    StandingReasons(server, now) + ReadingReasons(server, demand)
  }

  function StandingReasons(server: Server, now: Instant): seq<Reason> {
    ReasonIf(server.openshift.state == Installed, InstalledElsewhere)
    + ReasonIf(server.openshift.state == InstalledToInventory, ClaimedByMce)
    + ReasonIf(server.maintenance.enabled, InMaintenance)
    + ReasonIf(!server.reachable, Unreachable)
    + ReasonIf(server.reservation.IsLive(now), Reserved)
  }

  function ReadingReasons(server: Server, demand: Demand): seq<Reason> {
    ReasonIf(server.health.overall !in demand.tiers, HealthTier)
    + ReasonIf(server.health.network != REQUIRED_NETWORK_HEALTH, NetworkHealth)
    + ReasonIf(NicMacsShort(server, demand.minNicMacs), NicMacsUnread)
  }

  /** The explanation and the predicate never disagree: nothing is said against a server
      exactly when it qualifies. */
  lemma NoReasonMeansQualified(server: Server, demand: Demand, now: Instant)
    ensures Reasons(server, demand, now) == [] <==> StillQualifies(server, demand, now)
  {
  }

  /** Unless a caller asks for it, no critical server and none of unknown health is handed out, and
      any other severity may be. */
  lemma DefaultTiers(server: Server, minNicMacs: int, now: Instant)
    ensures var demand := Demand(SELECTABLE_TIERS, minNicMacs);
            && (StillQualifies(server, demand, now) ==> server.health.overall in {Healthy, Warning, Major})
            && (server.health.overall in {Healthy, Warning, Major} ==> HealthTier !in Reasons(server, demand, now))
  {
    assert SELECTABLE_TIERS[0] == Healthy && SELECTABLE_TIERS[1] == Warning && SELECTABLE_TIERS[2] == Major;
  }

  /** The reasons, built up as the service builds them. */
  method UnassignableReasons(server: Server, demand: Demand, now: Instant) returns (reasons: seq<Reason>)
    ensures reasons == Reasons(server, demand, now)
    ensures reasons == [] <==> StillQualifies(server, demand, now)
  {
    NoReasonMeansQualified(server, demand, now);
    reasons := [];
    var state := server.openshift.state;
    if state == Installed {
      reasons := reasons + [InstalledElsewhere];
    } else if state != Available {
      reasons := reasons + [ClaimedByMce];
    }
    if server.maintenance.enabled { reasons := reasons + [InMaintenance]; }
    if !server.reachable { reasons := reasons + [Unreachable]; }
    if server.reservation.IsLive(now) { reasons := reasons + [Reserved]; }
    assert reasons == StandingReasons(server, now);
    var readings := UnreadableReasons(server, demand);
    reasons := reasons + readings;
  }

  method UnreadableReasons(server: Server, demand: Demand) returns (reasons: seq<Reason>)
    ensures reasons == ReadingReasons(server, demand)
  {
    reasons := [];
    if server.health.overall !in demand.tiers { reasons := reasons + [HealthTier]; }
    if server.health.network != REQUIRED_NETWORK_HEALTH { reasons := reasons + [NetworkHealth]; }
    if NicMacsShort(server, demand.minNicMacs) { reasons := reasons + [NicMacsUnread]; }
  }

  /** A document that spells what the lookup asks about in today's values. */
  predicate Current(raw: Raw) {
    && Spelled(raw.state)
    && raw.inMaintenance.Some?
    && raw.reachable.Some?
    && raw.overall.Some? && raw.overall.value.SeverityNow?
    && raw.network != Some(InfoRetired)
  }

  lemma StatusAsks(raw: Raw)
    ensures Matches(StatusFilters(), raw) <==>
              && raw.state == Some(StateNow(Available)) && raw.inMaintenance == Some(false)
              && raw.reachable == Some(true) && raw.network == Some(SeverityNow(Healthy))
  {
    var clauses := StatusFilters().clauses;
    assert clauses[0] in clauses && clauses[1] in clauses && clauses[2] in clauses && clauses[3] in clauses;
  }

  lemma NicMacsAsk(raw: Raw, minNicMacs: int)
    ensures Matches(NicMacFilters(minNicMacs), raw) <==> !NicMacsShort(Load(raw), minNicMacs)
  {
    if minNicMacs >= 1 {
      TwoAsk(On(NicMacPath(minNicMacs - 1), Exists), On(UnreadPath, NotEquals(FieldName(NicMacs))), raw);
      UnreadAsks(raw);
    }
  }

  lemma UnreadAsks(raw: Raw)
    ensures Is(At(raw, UnreadPath), FieldName(NicMacs)) <==> raw.unread.Some? && NicMacs in raw.unread.value
  {
    if raw.unread.Some? {
      var names, found := raw.unread.value, At(raw, UnreadPath).value.items;
      if NicMacs in names {
        var i :| 0 <= i < |names| && names[i] == NicMacs;
        assert found[i] == FieldName(NicMacs);
      }
      if FieldName(NicMacs) in found {
        var i :| 0 <= i < |found| && found[i] == FieldName(NicMacs);
        assert names[i] == NicMacs;
      }
    }
  }

  lemma LiveLocksAsk(raw: Raw, now: Instant)
    ensures (exists f | f in LiveLocks(now) :: Matches(f, raw)) <==> Load(raw).reservation.IsLive(now)
  {
    var locks := LiveLocks(now);
    TwoAsk(On(HolderPath, NotNull), On(ExpiryPath, IsNull), raw);
    TwoAsk(On(HolderPath, NotNull), On(ExpiryPath, Greater(Moment(now))), raw);
    assert locks[0] in locks && locks[1] in locks;
  }

  lemma UnreservedAsks(raw: Raw, now: Instant)
    ensures Matches(UnreservedFilters(now), raw) <==> !Load(raw).reservation.IsLive(now)
  {
    LiveLocksAsk(raw, now);
    assert Nor(LiveLocks(now)) in UnreservedFilters(now).clauses;
  }

  lemma TiersAsk(raw: Raw, tiers: seq<HealthSeverity>)
    ensures (exists v | v in Severities(tiers) :: Is(At(raw, OverallPath), v)) <==>
              raw.overall.Some? && raw.overall.value.SeverityNow? && raw.overall.value.severity in tiers
    ensures Matches(TierFilter(tiers), raw) <==>
              raw.overall.Some? && raw.overall.value.SeverityNow? && raw.overall.value.severity in tiers
  {
    OnlyAsks(OverallPath, OneOf(Severities(tiers)), raw);
    if raw.overall.Some? && raw.overall.value.SeverityNow? && raw.overall.value.severity in tiers {
      var i :| 0 <= i < |tiers| && tiers[i] == raw.overall.value.severity;
      assert Severities(tiers)[i] in Severities(tiers);
    }
  }

  /** No dictionary of the query shares a key with another. */
  lemma KeysAreApart(base: Filter, demand: Demand, now: Instant)
    requires IsBase(base)
    ensures Apart(base, StatusFilters()) && Apart(Merged(base, StatusFilters()), NicMacFilters(demand.minNicMacs))
    ensures Apart(Merged(Merged(base, StatusFilters()), NicMacFilters(demand.minNicMacs)), UnreservedFilters(now))
    ensures Apart(AssignableFilters(base, demand, now), TierFilter(demand.tiers))
  {
    var status, macs, free, tier :=
      StatusFilters(), NicMacFilters(demand.minNicMacs), UnreservedFilters(now), TierFilter(demand.tiers);
    ApartFromBoth(base, status, macs);
    ApartFromBoth(base, status, free);
    ApartFromBoth(Merged(base, status), macs, free);
    ApartFromBoth(base, status, tier);
    ApartFromBoth(Merged(base, status), macs, tier);
    ApartFromBoth(Merged(Merged(base, status), macs), free, tier);
  }

  lemma QueryAsks(raw: Raw, base: Filter, demand: Demand, now: Instant)
    requires IsBase(base)
    ensures Matches(FullQuery(base, demand, now), raw) <==>
              && Matches(base, raw) && Matches(StatusFilters(), raw)
              && Matches(NicMacFilters(demand.minNicMacs), raw) && Matches(UnreservedFilters(now), raw)
              && Matches(TierFilter(demand.tiers), raw)
  {
    KeysAreApart(base, demand, now);
    var status, macs, free, tier :=
      StatusFilters(), NicMacFilters(demand.minNicMacs), UnreservedFilters(now), TierFilter(demand.tiers);
    MergeAsksForBoth(base, status, raw);
    MergeAsksForBoth(Merged(base, status), macs, raw);
    MergeAsksForBoth(Merged(Merged(base, status), macs), free, raw);
    MergeAsksForBoth(AssignableFilters(base, demand, now), tier, raw);
  }

  lemma LoadReads(raw: Raw)
    ensures var server := Load(raw);
            && (raw.state == Some(StateNow(Available)) <==> server.openshift.state == Available && Spelled(raw.state))
            && (raw.inMaintenance == Some(false) <==> !server.maintenance.enabled && raw.inMaintenance.Some?)
            && (raw.reachable == Some(true) <==> server.reachable && raw.reachable.Some?)
            && (raw.network == Some(SeverityNow(Healthy)) <==>
                  server.health.network == Healthy && raw.network != Some(InfoRetired))
            && (raw.overall.Some? && raw.overall.value.SeverityNow? ==> server.health.overall == raw.overall.value.severity)
  {
    assert raw.inMaintenance.Some? ==> raw.inMaintenance == Some(raw.inMaintenance.value);
    assert raw.reachable.Some? ==> raw.reachable == Some(raw.reachable.value);
    assert raw.inMaintenance.Some? && !raw.inMaintenance.value ==> raw.inMaintenance == Some(false);
    assert raw.reachable.Some? && raw.reachable.value ==> raw.reachable == Some(true);
  }

  predicate Spelled(state: Option<StateWord>) {
    state.Some? && state.value.StateNow?
  }

  /** The query and the predicate agree on every document that spells its status in today's
      values, at every instant; one that does not is never drawn, even where it qualifies. */
  lemma QueryAgreesWithPredicate(raw: Raw, base: Filter, demand: Demand, now: Instant)
    requires IsBase(base)
    ensures Matches(FullQuery(base, demand, now), raw) <==>
              Matches(base, raw) && StillQualifies(Load(raw), demand, now) && Current(raw)
    ensures Matches(FullQuery(base, demand, now), raw) <==>
              Matches(base, raw) && Reasons(Load(raw), demand, now) == [] && Current(raw)
  {
    QueryAsks(raw, base, demand, now);
    StatusAsks(raw);
    NicMacsAsk(raw, demand.minNicMacs);
    UnreservedAsks(raw, now);
    TiersAsk(raw, demand.tiers);
    LoadReads(raw);
    NoReasonMeansQualified(Load(raw), demand, now);
  }

  /** A document whose network category still reads INFO loads as healthy and qualifies, but no
      draw finds it. */
  lemma RetiredValueIsMissed(server: Server, now: Instant)
    ensures var raw := Raw(server, {}, Some(StateNow(Available)), Some(false), Some(true), Some(SeverityNow(Healthy)),
                           Some(InfoRetired), Some([]), Some([]), None, None);
            var demand := Demand(SELECTABLE_TIERS, 0);
            StillQualifies(Load(raw), demand, now) && !Matches(FullQuery(Filter([]), demand, now), raw)
  {
    var raw := Raw(server, {}, Some(StateNow(Available)), Some(false), Some(true), Some(SeverityNow(Healthy)),
                   Some(InfoRetired), Some([]), Some([]), None, None);
    QueryAgreesWithPredicate(raw, Filter([]), Demand(SELECTABLE_TIERS, 0), now);
  }
}
