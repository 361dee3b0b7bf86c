/** The statistics of the landing page: aggregated counts spread over the sites and summed for the fleet. */
module Sites {
  import opened Documents

  const UNASSIGNED := "unassigned"

  /** One bucket of the aggregation, as stored: any value may be missing or unknown. */
  datatype Row = Row(
    siteId: Option<string>,
    vendor: Option<string>,
    health: Option<string>,
    maintenance: bool,
    installationType: Option<string>,
    openshiftState: Option<string>,
    count: nat)

  datatype Definition = Definition(code: string, name: string)

  /** The stored spelling of every enum value a count is sliced by. */
  datatype Vocabulary = Vocabulary(
    vendors: map<string, Vendor>,
    healths: map<string, HealthSeverity>,
    installations: map<string, InstallationType>,
    states: map<string, OpenShiftState>)

  const WORDS := Vocabulary(
    map["dell" := Dell, "cisco" := Cisco, "hp" := Hp, "standalone" := Standalone],
    map["UNKNOWN" := Unknown, "HEALTHY" := Healthy, "WARNING" := Warning, "MAJOR" := Major, "CRITICAL" := Critical],
    map["HOSTED_CLUSTER" := HostedCluster, "MCE" := Mce, "UPI" := Upi, "UNCLASSIFIED" := Unclassified],
    map["AVAILABLE" := Available, "INSTALLED" := Installed, "INSTALLED_TO_INVENTORY" := InstalledToInventory])

  datatype VendorCounts = VendorCounts(dell: nat, cisco: nat, hp: nat, standalone: nat) {
    function Plus(vendor: Vendor, count: nat): VendorCounts {
      match vendor
      case Dell => this.(dell := dell + count)
      case Cisco => this.(cisco := cisco + count)
      case Hp => this.(hp := hp + count)
      case Standalone => this.(standalone := standalone + count)
    }

    function Sum(): nat {
      dell + cisco + hp + standalone
    }
  }

  datatype HealthCounts = HealthCounts(unknown: nat, healthy: nat, warning: nat, major: nat, critical: nat) {
    function Plus(health: HealthSeverity, count: nat): HealthCounts {
      match health
      case Unknown => this.(unknown := unknown + count)
      case Healthy => this.(healthy := healthy + count)
      case Warning => this.(warning := warning + count)
      case Major => this.(major := major + count)
      case Critical => this.(critical := critical + count)
    }

    function Sum(): nat {
      unknown + healthy + warning + major + critical
    }
  }

  datatype Breakdown = Breakdown(total: nat, inMaintenance: nat, byVendor: VendorCounts, byHealth: HealthCounts)

  datatype InstallationSlices = InstallationSlices(hostedCluster: Breakdown, mce: Breakdown, upi: Breakdown, unclassified: Breakdown) {
    function Add(words: Vocabulary, row: Row): InstallationSlices {
      match InstallationOf(words, row)
      case HostedCluster => this.(hostedCluster := Accumulated(words, hostedCluster, row))
      case Mce => this.(mce := Accumulated(words, mce, row))
      case Upi => this.(upi := Accumulated(words, upi, row))
      case Unclassified => this.(unclassified := Accumulated(words, unclassified, row))
    }
  }

  datatype StateSlices = StateSlices(available: Breakdown, installed: Breakdown, inInventory: Breakdown) {
    function Add(words: Vocabulary, row: Row): StateSlices {
      match StateOf(words, row)
      case Available => this.(available := Accumulated(words, available, row))
      case Installed => this.(installed := Accumulated(words, installed, row))
      case InstalledToInventory => this.(inInventory := Accumulated(words, inInventory, row))
    }
  }

  /** A site's record, or the fleet's: the whole, and the same counts sliced two ways. */
  datatype Stats = Stats(whole: Breakdown, byInstallation: InstallationSlices, byState: StateSlices)

  function Lookup<T>(words: map<string, T>, text: Option<string>): Option<T> {
    if text.Some? && text.value in words then Some(words[text.value]) else None
  }

  function OrElse<T>(found: Option<T>, fallback: T): T {
    if found.Some? then found.value else fallback
  }

  // Where a row is counted. Every slicing but the vendors' has a place for values it does not know.

  function VendorOf(words: Vocabulary, row: Row): Option<Vendor> {
    Lookup(words.vendors, row.vendor)
  }

  function HealthOf(words: Vocabulary, row: Row): HealthSeverity {
    OrElse(Lookup(words.healths, row.health), Unknown)
  }

  function InstallationOf(words: Vocabulary, row: Row): InstallationType {
    OrElse(Lookup(words.installations, row.installationType), Unclassified)
  }

  function StateOf(words: Vocabulary, row: Row): OpenShiftState {
    OrElse(Lookup(words.states, row.openshiftState), Available)
  }

  function SiteOf(known: set<string>, row: Row): string {
    if Truthy(row.siteId) && row.siteId.value in known then row.siteId.value else UNASSIGNED
  }

  const EMPTY := Breakdown(0, 0, VendorCounts(0, 0, 0, 0), HealthCounts(0, 0, 0, 0, 0))

  const NOTHING := Stats(EMPTY, InstallationSlices(EMPTY, EMPTY, EMPTY, EMPTY), StateSlices(EMPTY, EMPTY, EMPTY))

  /** One bucket added into a breakdown. */
  function Accumulated(words: Vocabulary, entry: Breakdown, row: Row): Breakdown {
    var vendor := VendorOf(words, row);
    Breakdown(
      entry.total + row.count,
      entry.inMaintenance + if row.maintenance then row.count else 0,
      if vendor.Some? then entry.byVendor.Plus(vendor.value, row.count) else entry.byVendor,
      entry.byHealth.Plus(HealthOf(words, row), row.count))
  }

  function Folded(words: Vocabulary, entry: Stats, row: Row): Stats {
    Stats(Accumulated(words, entry.whole, row), entry.byInstallation.Add(words, row), entry.byState.Add(words, row))
  }

  // What the counts mean.

  /** The rows a breakdown is about. */
  datatype Where = Where(site: Option<string>, installation: Option<InstallationType>, state: Option<OpenShiftState>)

  /** One of a breakdown's counts; `Unlisted` rows, of no known vendor, have none of their own. */
  datatype Cell = All | InMaintenance | OfVendor(vendor: Vendor) | OfHealth(health: HealthSeverity) | Unlisted

  predicate In(words: Vocabulary, known: set<string>, row: Row, where: Where) {
    && (where.site.Some? ==> SiteOf(known, row) == where.site.value)
    && (where.installation.Some? ==> InstallationOf(words, row) == where.installation.value)
    && (where.state.Some? ==> StateOf(words, row) == where.state.value)
  }

  predicate Has(words: Vocabulary, row: Row, cell: Cell) {
    match cell
    case All => true
    case InMaintenance => row.maintenance
    case OfVendor(vendor) => VendorOf(words, row) == Some(vendor)
    case OfHealth(health) => HealthOf(words, row) == health
    case Unlisted => VendorOf(words, row).None?
  }

  /** How many servers the rows of one kind count. */
  function Count(words: Vocabulary, known: set<string>, rows: seq<Row>, where: Where, cell: Cell): nat {
    if rows == [] then 0
    else
      var last := rows[|rows| - 1];
      Count(words, known, rows[..|rows| - 1], where, cell)
      + if In(words, known, last, where) && Has(words, last, cell) then last.count else 0
  }

  function BreakdownOf(words: Vocabulary, known: set<string>, rows: seq<Row>, where: Where): Breakdown {
    Breakdown(
      Count(words, known, rows, where, All),
      Count(words, known, rows, where, InMaintenance),
      VendorCounts(Count(words, known, rows, where, OfVendor(Dell)), Count(words, known, rows, where, OfVendor(Cisco)),
                   Count(words, known, rows, where, OfVendor(Hp)), Count(words, known, rows, where, OfVendor(Standalone))),
      HealthCounts(Count(words, known, rows, where, OfHealth(Unknown)), Count(words, known, rows, where, OfHealth(Healthy)),
                   Count(words, known, rows, where, OfHealth(Warning)), Count(words, known, rows, where, OfHealth(Major)),
                   Count(words, known, rows, where, OfHealth(Critical))))
  }

  function StatsOf(words: Vocabulary, known: set<string>, rows: seq<Row>, site: Option<string>): Stats {
    Stats(
      BreakdownOf(words, known, rows, Where(site, None, None)),
      InstallationSlices(BreakdownOf(words, known, rows, Where(site, Some(HostedCluster), None)),
                         BreakdownOf(words, known, rows, Where(site, Some(Mce), None)),
                         BreakdownOf(words, known, rows, Where(site, Some(Upi), None)),
                         BreakdownOf(words, known, rows, Where(site, Some(Unclassified), None))),
      StateSlices(BreakdownOf(words, known, rows, Where(site, None, Some(Available))),
                  BreakdownOf(words, known, rows, Where(site, None, Some(Installed))),
                  BreakdownOf(words, known, rows, Where(site, None, Some(InstalledToInventory)))))
  }

  lemma CountGrows(words: Vocabulary, known: set<string>, rows: seq<Row>, row: Row, where: Where, cell: Cell)
    ensures Count(words, known, rows + [row], where, cell) ==
            Count(words, known, rows, where, cell)
            + if In(words, known, row, where) && Has(words, row, cell) then row.count else 0
  {
    assert (rows + [row])[..|rows|] == rows;
  }

  lemma BreakdownGrows(words: Vocabulary, known: set<string>, rows: seq<Row>, row: Row, where: Where)
    ensures BreakdownOf(words, known, rows + [row], where) ==
            if In(words, known, row, where) then Accumulated(words, BreakdownOf(words, known, rows, where), row)
            else BreakdownOf(words, known, rows, where)
  {
    CountGrows(words, known, rows, row, where, All);
    CountGrows(words, known, rows, row, where, InMaintenance);
    CountGrows(words, known, rows, row, where, OfVendor(Dell));
    CountGrows(words, known, rows, row, where, OfVendor(Cisco));
    CountGrows(words, known, rows, row, where, OfVendor(Hp));
    CountGrows(words, known, rows, row, where, OfVendor(Standalone));
    CountGrows(words, known, rows, row, where, OfHealth(Unknown));
    CountGrows(words, known, rows, row, where, OfHealth(Healthy));
    CountGrows(words, known, rows, row, where, OfHealth(Warning));
    CountGrows(words, known, rows, row, where, OfHealth(Major));
    CountGrows(words, known, rows, row, where, OfHealth(Critical));
  }

  /** Folding one more row into a record counts it there, once in each family of slices; a
      record of another site does not move. */
  lemma StatsGrow(words: Vocabulary, known: set<string>, rows: seq<Row>, row: Row, site: Option<string>)
    ensures StatsOf(words, known, rows + [row], site) ==
            if site.Some? && SiteOf(known, row) != site.value then StatsOf(words, known, rows, site)
            else Folded(words, StatsOf(words, known, rows, site), row)
  {
    BreakdownGrows(words, known, rows, row, Where(site, None, None));
    BreakdownGrows(words, known, rows, row, Where(site, Some(HostedCluster), None));
    BreakdownGrows(words, known, rows, row, Where(site, Some(Mce), None));
    BreakdownGrows(words, known, rows, row, Where(site, Some(Upi), None));
    BreakdownGrows(words, known, rows, row, Where(site, Some(Unclassified), None));
    BreakdownGrows(words, known, rows, row, Where(site, None, Some(Available)));
    BreakdownGrows(words, known, rows, row, Where(site, None, Some(Installed)));
    BreakdownGrows(words, known, rows, row, Where(site, None, Some(InstalledToInventory)));
  }

  /** The record of one site, or of the fleet, row by row. */
  function Tallied(words: Vocabulary, known: set<string>, rows: seq<Row>, site: Option<string>): Stats {
    if rows == [] then NOTHING
    else
      var before, last := Tallied(words, known, rows[..|rows| - 1], site), rows[|rows| - 1];
      if site.Some? && SiteOf(known, last) != site.value then before else Folded(words, before, last)
  }

  lemma TalliedGrows(words: Vocabulary, known: set<string>, rows: seq<Row>, row: Row, site: Option<string>)
    ensures Tallied(words, known, rows + [row], site) ==
            if site.Some? && SiteOf(known, row) != site.value then Tallied(words, known, rows, site)
            else Folded(words, Tallied(words, known, rows, site), row)
  {
    assert (rows + [row])[..|rows|] == rows;
  }

  /** Every number of every record is the number of servers its rows count under it. */
  lemma {:induction false} TallyMeansCounts(words: Vocabulary, known: set<string>, rows: seq<Row>, site: Option<string>)
    ensures Tallied(words, known, rows, site) == StatsOf(words, known, rows, site)
  {
    if rows != [] {
      var before, last := rows[..|rows| - 1], rows[|rows| - 1];
      assert rows == before + [last];
      TallyMeansCounts(words, known, before, site);
      StatsGrow(words, known, before, last, site);
    }
  }

  // Conservation.

  function CountAll(rows: seq<Row>): nat {
    if rows == [] then 0 else CountAll(rows[..|rows| - 1]) + rows[|rows| - 1].count
  }

  function OverSites(words: Vocabulary, known: set<string>, rows: seq<Row>, codes: seq<string>, where: Where, cell: Cell): nat {
    if codes == [] then 0
    else
      OverSites(words, known, rows, codes[..|codes| - 1], where, cell)
      + Count(words, known, rows, where.(site := Some(codes[|codes| - 1])), cell)
  }

  lemma {:induction false} WholeIsEveryRow(words: Vocabulary, known: set<string>, rows: seq<Row>)
    ensures Count(words, known, rows, Where(None, None, None), All) == CountAll(rows)
  {
    if rows != [] { WholeIsEveryRow(words, known, rows[..|rows| - 1]); }
  }

  /** Health counts sum to the total. */
  lemma {:induction false} HealthAddsUp(words: Vocabulary, known: set<string>, rows: seq<Row>, where: Where)
    ensures Count(words, known, rows, where, All) ==
            Count(words, known, rows, where, OfHealth(Unknown)) + Count(words, known, rows, where, OfHealth(Healthy))
            + Count(words, known, rows, where, OfHealth(Warning)) + Count(words, known, rows, where, OfHealth(Major))
            + Count(words, known, rows, where, OfHealth(Critical))
  {
    if rows != [] { HealthAddsUp(words, known, rows[..|rows| - 1], where); }
  }

  /** Vendor counts fall short of the total by exactly the rows whose vendor is unknown. */
  lemma {:induction false} VendorsFallShort(words: Vocabulary, known: set<string>, rows: seq<Row>, where: Where)
    ensures Count(words, known, rows, where, All) ==
            Count(words, known, rows, where, OfVendor(Dell)) + Count(words, known, rows, where, OfVendor(Cisco))
            + Count(words, known, rows, where, OfVendor(Hp)) + Count(words, known, rows, where, OfVendor(Standalone))
            + Count(words, known, rows, where, Unlisted)
  {
    if rows != [] {
      VendorsFallShort(words, known, rows[..|rows| - 1], where);
      match VendorOf(words, rows[|rows| - 1])
      case None =>
      case Some(Dell) =>
      case Some(Cisco) =>
      case Some(Hp) =>
      case Some(Standalone) =>
    }
  }

  /** Either family of slices sums to the whole, count by count. */
  lemma FamiliesAddUp(words: Vocabulary, known: set<string>, rows: seq<Row>, site: Option<string>, cell: Cell)
    ensures Count(words, known, rows, Where(site, None, None), cell) ==
            Count(words, known, rows, Where(site, Some(HostedCluster), None), cell)
            + Count(words, known, rows, Where(site, Some(Mce), None), cell)
            + Count(words, known, rows, Where(site, Some(Upi), None), cell)
            + Count(words, known, rows, Where(site, Some(Unclassified), None), cell)
    ensures Count(words, known, rows, Where(site, None, None), cell) ==
            Count(words, known, rows, Where(site, None, Some(Available)), cell)
            + Count(words, known, rows, Where(site, None, Some(Installed)), cell)
            + Count(words, known, rows, Where(site, None, Some(InstalledToInventory)), cell)
  {
    InstallationsAddUp(words, known, rows, site, cell);
    StatesAddUp(words, known, rows, site, cell);
  }

  lemma {:induction false} InstallationsAddUp(words: Vocabulary, known: set<string>, rows: seq<Row>, site: Option<string>, cell: Cell)
    ensures Count(words, known, rows, Where(site, None, None), cell) ==
            Count(words, known, rows, Where(site, Some(HostedCluster), None), cell)
            + Count(words, known, rows, Where(site, Some(Mce), None), cell)
            + Count(words, known, rows, Where(site, Some(Upi), None), cell)
            + Count(words, known, rows, Where(site, Some(Unclassified), None), cell)
  {
    if rows != [] {
      InstallationsAddUp(words, known, rows[..|rows| - 1], site, cell);
      match InstallationOf(words, rows[|rows| - 1])
      case HostedCluster =>
      case Mce =>
      case Upi =>
      case Unclassified =>
    }
  }

  lemma {:induction false} StatesAddUp(words: Vocabulary, known: set<string>, rows: seq<Row>, site: Option<string>, cell: Cell)
    ensures Count(words, known, rows, Where(site, None, None), cell) ==
            Count(words, known, rows, Where(site, None, Some(Available)), cell)
            + Count(words, known, rows, Where(site, None, Some(Installed)), cell)
            + Count(words, known, rows, Where(site, None, Some(InstalledToInventory)), cell)
  {
    if rows != [] {
      StatesAddUp(words, known, rows[..|rows| - 1], site, cell);
      match StateOf(words, rows[|rows| - 1])
      case Available =>
      case Installed =>
      case InstalledToInventory =>
    }
  }

  ghost predicate Distinct(codes: seq<string>) {
    forall i, j | 0 <= i < j < |codes| :: codes[i] != codes[j]
  }

  ghost predicate Lists(codes: seq<string>, known: set<string>) {
    Distinct(codes) && forall code :: code in codes <==> code in known
  }

  lemma DistinctPrefix(codes: seq<string>)
    requires Distinct(codes) && codes != []
    ensures Distinct(codes[..|codes| - 1]) && codes[|codes| - 1] !in codes[..|codes| - 1]
    ensures codes == codes[..|codes| - 1] + [codes[|codes| - 1]]
  {
  }

  lemma {:induction false} OneSitePerRow(words: Vocabulary, known: set<string>, rows: seq<Row>, row: Row, codes: seq<string>,
                                         where: Where, cell: Cell)
    requires where.site.None? && Distinct(codes)
    ensures OverSites(words, known, rows + [row], codes, where, cell) ==
            OverSites(words, known, rows, codes, where, cell)
            + if SiteOf(known, row) in codes && In(words, known, row, where) && Has(words, row, cell) then row.count else 0
  {
    if codes != [] {
      var n := |codes| - 1;
      DistinctPrefix(codes);
      var home := SiteOf(known, row);
      assert home in codes <==> home in codes[..n] || home == codes[n];
      OneSitePerRow(words, known, rows, row, codes[..n], where, cell);
      CountGrows(words, known, rows, row, where.(site := Some(codes[n])), cell);
    }
  }

  lemma {:induction false} NoRowsNoCounts(words: Vocabulary, known: set<string>, codes: seq<string>, where: Where, cell: Cell)
    ensures OverSites(words, known, [], codes, where, cell) == 0
  {
    if codes != [] { NoRowsNoCounts(words, known, codes[..|codes| - 1], where, cell); }
  }

  /** Every count of the fleet, whole or sliced, is the sum of that count over the sites. */
  lemma {:induction false} SitesAddUp(words: Vocabulary, known: set<string>, rows: seq<Row>, codes: seq<string>,
                                      where: Where, cell: Cell)
    requires Lists(codes, known) && UNASSIGNED in known && where.site.None?
    ensures Count(words, known, rows, where, cell) == OverSites(words, known, rows, codes, where, cell)
  {
    if rows == [] {
      NoRowsNoCounts(words, known, codes, where, cell);
    } else {
      var before, last := rows[..|rows| - 1], rows[|rows| - 1];
      assert rows == before + [last];
      SitesAddUp(words, known, before, codes, where, cell);
      OneSitePerRow(words, known, before, last, codes, where, cell);
    }
  }

  /** The site codes in the order they are listed: as configured, the unassigned bucket last
      unless the catalog itself names it. */
  function Codes(definitions: seq<Definition>): seq<string> {
    Extended(Configured(definitions), UNASSIGNED)
  }

  function Extended(codes: seq<string>, code: string): seq<string> {
    if code in codes then codes else codes + [code]
  }

  function Configured(definitions: seq<Definition>): seq<string> {
    if definitions == [] then []
    else Extended(Configured(definitions[..|definitions| - 1]), definitions[|definitions| - 1].code)
  }

  ghost function CodeSet(codes: seq<string>): set<string> {
    set code | code in codes
  }

  lemma ExtendedDistinct(codes: seq<string>, code: string)
    requires Distinct(codes)
    ensures Distinct(Extended(codes, code))
  {
  }

  lemma {:induction false} ConfiguredDistinct(definitions: seq<Definition>)
    ensures Distinct(Configured(definitions))
  {
    if definitions != [] {
      ConfiguredDistinct(definitions[..|definitions| - 1]);
      ExtendedDistinct(Configured(definitions[..|definitions| - 1]), definitions[|definitions| - 1].code);
    }
  }

  lemma CodesList(definitions: seq<Definition>)
    ensures Lists(Codes(definitions), CodeSet(Codes(definitions)))
    ensures UNASSIGNED in Codes(definitions)
  {
    ConfiguredDistinct(definitions);
    ExtendedDistinct(Configured(definitions), UNASSIGNED);
  }

  /** For any rows and any catalog: the fleet's total is the number of servers counted and the
      sum of the sites' totals, and within the fleet and within every site the health counts and
      both families of slices sum to the total. */
  lemma PivotConserves(words: Vocabulary, definitions: seq<Definition>, rows: seq<Row>, site: Option<string>)
    ensures var codes := Codes(definitions);
            var known := CodeSet(codes);
            var fleet, here := Tallied(words, known, rows, None), Tallied(words, known, rows, site);
            && fleet.whole.total == CountAll(rows)
            && fleet.whole.total == OverSites(words, known, rows, codes, Where(None, None, None), All)
            && fleet.whole.inMaintenance == OverSites(words, known, rows, codes, Where(None, None, None), InMaintenance)
            && here.whole.byHealth.Sum() == here.whole.total
            && here.whole.byVendor.Sum() <= here.whole.total
            && here.byInstallation.hostedCluster.total + here.byInstallation.mce.total
               + here.byInstallation.upi.total + here.byInstallation.unclassified.total == here.whole.total
            && here.byState.available.total + here.byState.installed.total + here.byState.inInventory.total
               == here.whole.total
  {
    var codes := Codes(definitions);
    var known := CodeSet(codes);
    CodesList(definitions);
    TallyMeansCounts(words, known, rows, None);
    TallyMeansCounts(words, known, rows, site);
    WholeIsEveryRow(words, known, rows);
    SitesAddUp(words, known, rows, codes, Where(None, None, None), All);
    SitesAddUp(words, known, rows, codes, Where(None, None, None), InMaintenance);
    FamiliesAddUp(words, known, rows, site, All);
    BreakdownAddsUp(words, known, rows, Where(site, None, None));
  }

  /** In every breakdown the health counts sum to the total, and the vendor counts to the
      total less the rows of no known vendor. */
  lemma BreakdownAddsUp(words: Vocabulary, known: set<string>, rows: seq<Row>, where: Where)
    ensures var b := BreakdownOf(words, known, rows, where);
            b.byHealth.Sum() == b.total && b.byVendor.Sum() + Count(words, known, rows, where, Unlisted) == b.total
  {
    HealthAddsUp(words, known, rows, where);
    VendorsFallShort(words, known, rows, where);
  }

  // What the counts are of, read off the rows' own fields.

  /** The servers of the rows with a property. */
  function SumOf(rows: seq<Row>, keep: Row -> bool): nat {
    if rows == [] then 0
    else SumOf(rows[..|rows| - 1], keep) + if keep(rows[|rows| - 1]) then rows[|rows| - 1].count else 0
  }

  /** A row names a site, or none that is configured. */
  predicate NamesSite(known: set<string>, row: Row, code: string) {
    if code == UNASSIGNED
    then row.siteId == None || row.siteId.value == "" || row.siteId.value == UNASSIGNED || row.siteId.value !in known
    else row.siteId == Some(code) && code != "" && code in known
  }

  /** A field spells a value, or nothing known and the value is where those are counted. */
  predicate Spells<T(==)>(words: map<string, T>, text: Option<string>, value: T, catchAll: bool) {
    || (text != None && text.value in words && words[text.value] == value)
    || (catchAll && (text == None || text.value !in words))
  }

  predicate IsCounted(words: Vocabulary, known: set<string>, row: Row, where: Where, cell: Cell) {
    && (where.site != None ==> NamesSite(known, row, where.site.value))
    && (where.installation != None ==>
          Spells(words.installations, row.installationType, where.installation.value, where.installation.value == Unclassified))
    && (where.state != None ==> Spells(words.states, row.openshiftState, where.state.value, where.state.value == Available))
    && match cell
       case All => true
       case InMaintenance => row.maintenance
       case OfVendor(vendor) => Spells(words.vendors, row.vendor, vendor, false)
       case OfHealth(health) => Spells(words.healths, row.health, health, health == Unknown)
       case Unlisted => row.vendor == None || row.vendor.value !in words.vendors
  }

  lemma CountedExactly(words: Vocabulary, known: set<string>, row: Row, where: Where, cell: Cell)
    ensures In(words, known, row, where) && Has(words, row, cell) <==> IsCounted(words, known, row, where, cell)
  {
    if row.siteId.Some? { assert row.siteId == Some(row.siteId.value); }
  }

  /** Every number of every record, sliced or not, is the number of servers in the rows whose own
      fields name that site, that slice and that count. */
  lemma {:induction false} CountIsOfTheRows(words: Vocabulary, known: set<string>, rows: seq<Row>, where: Where, cell: Cell)
    ensures Count(words, known, rows, where, cell) ==
            SumOf(rows, (row: Row) => IsCounted(words, known, row, where, cell))
  {
    if rows != [] {
      CountIsOfTheRows(words, known, rows[..|rows| - 1], where, cell);
      CountedExactly(words, known, rows[|rows| - 1], where, cell);
    }
  }

  lemma {:induction false} SameSum(rows: seq<Row>, a: Row -> bool, b: Row -> bool)
    requires forall row | row in rows :: a(row) == b(row)
    ensures SumOf(rows, a) == SumOf(rows, b)
  {
    if rows != [] { SameSum(rows[..|rows| - 1], a, b); }
  }

  function NamedBy(code: string): Row -> bool {
    (row: Row) => row.siteId == Some(code)
  }

  /** A configured site holds the servers whose rows name it, and nobody else's; the unassigned
      bucket those whose rows name no site, or none that is configured. */
  lemma SiteHoldsItsRows(words: Vocabulary, known: set<string>, rows: seq<Row>, code: string)
    requires code in known
    ensures code != "" && code != UNASSIGNED ==>
              Tallied(words, known, rows, Some(code)).whole.total == SumOf(rows, NamedBy(code))
    ensures code == UNASSIGNED ==>
              Tallied(words, known, rows, Some(code)).whole.total ==
              SumOf(rows, (row: Row) => row.siteId == None || row.siteId.value in {"", UNASSIGNED} || row.siteId.value !in known)
  {
    TallyMeansCounts(words, known, rows, Some(code));
    var where := Where(Some(code), None, None);
    CountIsOfTheRows(words, known, rows, where, All);
    var counted := (row: Row) => IsCounted(words, known, row, where, All);
    if code == UNASSIGNED {
      SameSum(rows, counted,
              (row: Row) => row.siteId == None || row.siteId.value in {"", UNASSIGNED} || row.siteId.value !in known);
    } else if code != "" {
      SameSum(rows, counted, NamedBy(code));
    }
  }

  /** Every configured site's total is that of the rows that name it. */
  ghost predicate HoldTheirRows(stats: map<string, Stats>, rows: seq<Row>) {
    forall code | code in stats && code != "" && code != UNASSIGNED :: stats[code].whole.total == SumOf(rows, NamedBy(code))
  }

  lemma CountedHoldTheirRows(words: Vocabulary, stats: map<string, Stats>, fleet: Stats, known: set<string>, rows: seq<Row>)
    requires Counted(words, stats, fleet, known, rows)
    ensures HoldTheirRows(stats, rows)
  {
    forall code | code in stats && code != "" && code != UNASSIGNED
      ensures stats[code].whole.total == SumOf(rows, NamedBy(code))
    {
      SiteHoldsItsRows(words, known, rows, code);
    }
  }

  function Spellings<T(==)>(words: map<string, T>, value: T): set<string> {
    set word | word in words && words[word] == value
  }

  function VendorText(vendor: Vendor): string {
    match vendor
    case Dell => "dell"
    case Cisco => "cisco"
    case Hp => "hp"
    case Standalone => "standalone"
  }

  function HealthText(health: HealthSeverity): string {
    match health
    case Unknown => "UNKNOWN"
    case Healthy => "HEALTHY"
    case Warning => "WARNING"
    case Major => "MAJOR"
    case Critical => "CRITICAL"
  }

  function InstallationText(installation: InstallationType): string {
    match installation
    case HostedCluster => "HOSTED_CLUSTER"
    case Mce => "MCE"
    case Upi => "UPI"
    case Unclassified => "UNCLASSIFIED"
  }

  function StateText(state: OpenShiftState): string {
    match state
    case Available => "AVAILABLE"
    case Installed => "INSTALLED"
    case InstalledToInventory => "INSTALLED_TO_INVENTORY"
  }

  /** As the documents spell them, every bucket has exactly one word, its own. */
  lemma EveryBucketHasOneWord(vendor: Vendor, health: HealthSeverity, installation: InstallationType, state: OpenShiftState)
    ensures Spellings(WORDS.vendors, vendor) == {VendorText(vendor)}
    ensures Spellings(WORDS.healths, health) == {HealthText(health)}
    ensures Spellings(WORDS.installations, installation) == {InstallationText(installation)}
    ensures Spellings(WORDS.states, state) == {StateText(state)}
  {
    VendorWord(vendor);
    HealthWord(health);
    InstallationWord(installation);
    StateWord(state);
  }

  lemma VendorWord(vendor: Vendor)
    ensures Spellings(WORDS.vendors, vendor) == {VendorText(vendor)}
  {
    match vendor
    case Dell =>
    case Cisco =>
    case Hp =>
    case Standalone =>
  }

  lemma HealthWord(health: HealthSeverity)
    ensures Spellings(WORDS.healths, health) == {HealthText(health)}
  {
    match health
    case Unknown =>
    case Healthy =>
    case Warning =>
    case Major =>
    case Critical =>
  }

  lemma InstallationWord(installation: InstallationType)
    ensures Spellings(WORDS.installations, installation) == {InstallationText(installation)}
  {
    match installation
    case HostedCluster =>
    case Mce =>
    case Upi =>
    case Unclassified =>
  }

  lemma StateWord(state: OpenShiftState)
    ensures Spellings(WORDS.states, state) == {StateText(state)}
  {
    match state
    case Available =>
    case Installed =>
    case InstalledToInventory =>
  }

  /** A site's servers stored with the retired severity are counted under unknown, though each of
      them loads as healthy. */
  lemma RetiredSeverityIsUnknown(known: set<string>, row: Row, where: Where)
    requires row.health == Some("INFO")
    ensures HealthOf(WORDS, row) == Unknown
    ensures In(WORDS, known, row, where) ==>
              BreakdownOf(WORDS, known, [row], where).byHealth == HealthCounts(row.count, 0, 0, 0, 0)
  {
    assert HealthOf(WORDS, row) == Unknown;
    assert [row] == [] + [row];
    BreakdownGrows(WORDS, known, [], row, where);
  }

  /** The display name of every code; the last definition of a code names it. */
  function Names(definitions: seq<Definition>): map<string, string> {
    if definitions == [] then map[]
    else
      var last := definitions[|definitions| - 1];
      Names(definitions[..|definitions| - 1])[last.code := last.name]
  }

  /** In a catalog without repeated codes every site goes by its configured name. */
  lemma {:induction false} SitesGoByTheirNames(definitions: seq<Definition>, i: nat)
    requires i < |definitions| && forall j | i < j < |definitions| :: definitions[j].code != definitions[i].code
    ensures definitions[i].code in Names(definitions) && Names(definitions)[definitions[i].code] == definitions[i].name
  {
    if i < |definitions| - 1 { SitesGoByTheirNames(definitions[..|definitions| - 1], i); }
  }

  class Pivot {
    const words: Vocabulary
    var order: seq<string>
    var names: map<string, string>
    var stats: map<string, Stats>
    var fleet: Stats

    constructor (words: Vocabulary)
      ensures this.words == words && order == [] && names == map[] && stats == map[]
    {
      this.words, order, names, stats, fleet := words, [], map[], map[], NOTHING;
    }

    /** Start a site at nothing; a code seen before keeps its place in the list. */
    method Seed(code: string, name: string)
      modifies this
      ensures order == Extended(old(order), code)
      ensures names == old(names)[code := name] && stats == old(stats)[code := NOTHING] && fleet == old(fleet)
    {
      if code !in order { order := order + [code]; }
      names := names[code := name];
      stats := stats[code := NOTHING];
    }

    /** Add one bucket into one site's record. */
    method AddTo(code: string, row: Row)
      requires code in stats
      modifies this`stats
      ensures stats == old(stats)[code := Folded(words, old(stats)[code], row)]
    {
      var entry := stats[code];
      entry := entry.(whole := Accumulated(words, entry.whole, row));
      entry := entry.(byInstallation := entry.byInstallation.Add(words, row));
      entry := entry.(byState := entry.byState.Add(words, row));
      stats := stats[code := entry];
    }

    /** Spread the rows over the sites and the fleet. */
    method Fold(definitions: seq<Definition>, rows: seq<Row>)
      modifies this
      ensures order == Codes(definitions) && stats.Keys == CodeSet(order)
      ensures Counted(words, stats, fleet, CodeSet(order), rows)
      // Read off the rows: a configured site's total is that of the rows that name it.
      ensures HoldTheirRows(stats, rows)
      ensures names == Names(definitions)[UNASSIGNED := "Unassigned"]
    {
      SeedAll(definitions);
      ghost var known := stats.Keys;
      for i := 0 to |rows|
        invariant order == Codes(definitions) && known == CodeSet(order) && UNASSIGNED in known
        invariant Counted(words, stats, fleet, known, rows[..i])
        invariant names == Names(definitions)[UNASSIGNED := "Unassigned"]
      {
        assert rows[..i + 1] == rows[..i] + [rows[i]];
        AddRow(rows[i], rows[..i], known);
      }
      assert rows[..|rows|] == rows;
      CountedHoldTheirRows(words, stats, fleet, known, rows);
    }

    /** List every site of the catalog, and the unassigned bucket, before any row is looked at. */
    method SeedAll(definitions: seq<Definition>)
      modifies this
      ensures order == Codes(definitions) && stats.Keys == CodeSet(order) && UNASSIGNED in stats.Keys
      ensures fleet == NOTHING && forall code | code in stats :: stats[code] == NOTHING
      ensures names == Names(definitions)[UNASSIGNED := "Unassigned"]
    {
      order, names, stats := [], map[], map[];
      for i := 0 to |definitions|
        invariant order == Configured(definitions[..i]) && stats.Keys == CodeSet(order)
        invariant forall code | code in stats :: stats[code] == NOTHING
        invariant names == Names(definitions[..i])
      {
        assert definitions[..i + 1][..i] == definitions[..i];
        Seed(definitions[i].code, definitions[i].name);
      }
      assert definitions[..|definitions|] == definitions;
      Seed(UNASSIGNED, "Unassigned");
      fleet := NOTHING;
    }

    method AddRow(row: Row, ghost before: seq<Row>, ghost known: set<string>)
      requires UNASSIGNED in known && Counted(words, stats, fleet, known, before)
      modifies this`stats, this`fleet
      ensures Counted(words, stats, fleet, known, before + [row])
    {
      var code := if Truthy(row.siteId) && row.siteId.value in stats then row.siteId.value else UNASSIGNED;
      CountedGrows(words, stats, fleet, known, before, row);
      AddTo(code, row);
      fleet := Folded(words, fleet, row);
    }
  }

  lemma CountedGrows(words: Vocabulary, stats: map<string, Stats>, fleet: Stats, known: set<string>, rows: seq<Row>, row: Row)
    requires UNASSIGNED in known && Counted(words, stats, fleet, known, rows)
    ensures var code := SiteOf(known, row);
            && code in stats
            && Counted(words, stats[code := Folded(words, stats[code], row)], Folded(words, fleet, row), known, rows + [row])
  {
    var code := SiteOf(known, row);
    TalliedGrows(words, known, rows, row, None);
    var after := stats[code := Folded(words, stats[code], row)];
    forall other | other in known ensures after[other] == Tallied(words, known, rows + [row], Some(other)) {
      TalliedGrows(words, known, rows, row, Some(other));
    }
  }

  /** Every record is the tally of its rows. */
  ghost predicate Counted(words: Vocabulary, stats: map<string, Stats>, fleet: Stats, known: set<string>, rows: seq<Row>) {
    && stats.Keys == known
    && (forall code | code in known :: stats[code] == Tallied(words, known, rows, Some(code)))
    && fleet == Tallied(words, known, rows, None)
  }
}
