/** When a server is flagged as contested, over whole claim histories. */
module ContestedClaims {
  import opened Documents
  import opened Claims

  /** What can happen to one server's membership: a job reports it, or it is freed. */
  datatype Event = Seen(report: Report) | Freed

  /** The membership after the first `n` events of a server that started out unclaimed. */
  function After(events: seq<Event>, n: nat): Lifecycle
    requires n <= |events|
  {
    if n == 0 then UNCLAIMED
    else match events[n - 1]
      case Freed => UNCLAIMED
      case Seen(report) => Next(After(events, n - 1), report)
  }

  function Key(report: Report): string {
    ClaimKey(report.reportedBy, report.observation.clusterName)
  }

  function Uid(report: Report): Option<string> {
    report.observation.agentUid
  }

  /** Two reports of one claimant: by Agent UID when both are known, otherwise by claim key. */
  predicate Identified(a: Report, b: Report) {
    if Truthy(Uid(a)) && Truthy(Uid(b)) then Uid(a) == Uid(b) else Key(a) == Key(b)
  }

  /** Two consecutive reports that do not contradict each other: one claimant, or two
      claims putting the server in one cluster. */
  predicate Agree(a: Report, b: Report) {
    || Identified(a, b)
    || (!(Truthy(Uid(a)) && Truthy(Uid(b))) && b.observation.clusterName.Some?
        && a.observation.clusterName == b.observation.clusterName)
  }

  /** A report that keeps nothing of the one before it: that one claimed nothing, or an Agent
      of the same job wrote it before Agents were told apart. */
  predicate Forgets(a: Report, b: Report) {
    || a.observation.state == Available
    || a.reportedBy == ""
    || (Truthy(Uid(b)) && Uid(a).None? && a.observation.mceName.Some? && a.reportedBy == b.reportedBy)
  }

  /** A report that starts a clean history. */
  predicate StartsClean(events: seq<Event>, n: nat)
    requires n < |events|
  {
    events[n].Seen? && (n == 0 || events[n - 1].Freed? || Forgets(events[n - 1].report, events[n].report))
  }

  predicate TakesOver(events: seq<Event>, n: nat)
    requires n < |events|
  {
    && events[n].Seen? && !StartsClean(events, n)
    && !Agree(events[n - 1].report, events[n].report)
  }

  /** A report by the claimant already holding the server. */
  predicate Steady(events: seq<Event>, n: nat)
    requires n < |events|
  {
    events[n].Seen? && !StartsClean(events, n) && !TakesOver(events, n)
  }

  /** Nothing between two events changes hands or wipes the history. */
  predicate Quiet(events: seq<Event>, lo: nat, hi: nat)
    requires hi <= |events|
  {
    forall i | lo <= i < hi :: Steady(events, i)
  }

  /** The current claimant held the server, was displaced at event `j`, and came back at
      event `m` less than an hour later; ownership has not moved since, and the hour that
      follows a flip is not over. */
  predicate FlipBack(events: seq<Event>, j: nat, m: nat)
    requires events != []
  {
    && 0 < j < m < |events|
    && TakesOver(events, j) && TakesOver(events, m)
    && Quiet(events, j + 1, m) && Quiet(events, m + 1, |events|)
    && events[|events| - 1].Seen?
    && Identified(events[j - 1].report, events[m].report)
    && events[m].report.at - events[j].report.at < CONTEST_WINDOW
    && events[|events| - 1].report.at - events[m].report.at < CONTEST_WINDOW
  }

  ghost predicate ClockRuns(events: seq<Event>) {
    forall i, j | 0 <= i < j < |events| && events[i].Seen? && events[j].Seen? ::
      events[i].report.at <= events[j].report.at
  }

  /** The last takeover among the first `n + 1` events whose history is still remembered. */
  function LastTakeover(events: seq<Event>, n: nat): (m: Option<nat>)
    requires n < |events|
    ensures m.Some? ==> 0 < m.value <= n && TakesOver(events, m.value)
  {
    if events[n].Freed? || StartsClean(events, n) then None
    else if TakesOver(events, n) then Some(n)
    else LastTakeover(events, n - 1)
  }

  predicate CameBack(events: seq<Event>, m: nat)
    requires 0 < m < |events| && TakesOver(events, m)
  {
    var j := LastTakeover(events, m - 1);
    && j.Some?
    && Identified(events[j.value - 1].report, events[m].report)
    && events[m].report.at - events[j.value].report.at < CONTEST_WINDOW
  }

  /** What a stored membership remembers: who was displaced when, and whether that was a
      flip back. */
  datatype Past = Nobody | Displaced(claim: Report, since: Instant, flipped: bool)

  function Remembered(events: seq<Event>, n: nat): Past
    requires n < |events|
  {
    match LastTakeover(events, n)
    case None => Nobody
    case Some(m) => Displaced(events[m - 1].report, events[m].report.at, CameBack(events, m))
  }

  predicate Shows(now: Lifecycle, last: Report, past: Past) {
    && now.state == last.observation.state
    && now.clusterName == last.observation.clusterName
    && now.mceName == last.observation.mceName
    && now.reportedBy == Some(last.reportedBy)
    && now.lastReportedAt == Some(last.at)
    && now.agentUid == Uid(last)
    && now.reportedName == last.reportedName
    && match past
       case Nobody =>
         && now.previousReporter.None? && now.previousAgentUid.None?
         && now.claimChangedAt.None? && now.contestedWith.None?
       case Displaced(claim, since, flipped) =>
         && claim.reportedBy != ""
         && now.previousReporter == Some(Key(claim))
         && now.previousAgentUid == Uid(claim)
         && now.claimChangedAt == Some(since)
         && now.contestedWith == if flipped && last.at - since < CONTEST_WINDOW then Some(Key(claim)) else None
  }

  lemma KeyIsNotEmpty(report: Report)
    requires report.reportedBy != ""
    ensures Key(report) != ""
  {
  }

  lemma ForgettingShowsNobody(before: Lifecycle, a: Report, past: Past, b: Report)
    requires Shows(before, a, past) && Forgets(a, b)
    ensures Shows(Next(before, b), b, Nobody)
  {
  }

  lemma AgreementKeepsPast(before: Lifecycle, a: Report, past: Past, b: Report)
    requires Shows(before, a, past) && !Forgets(a, b) && Agree(a, b) && a.at <= b.at
    ensures Shows(Next(before, b), b, past)
  {
    if past.Displaced? { KeyIsNotEmpty(past.claim); }
  }

  /** Whether a claimant taking a server over is the one the past remembers as displaced. */
  predicate Returns(past: Past, b: Report) {
    past.Displaced? && Identified(past.claim, b) && b.at - past.since < CONTEST_WINDOW
  }

  lemma TakeoverRemembers(before: Lifecycle, a: Report, past: Past, b: Report)
    requires Shows(before, a, past) && !Forgets(a, b) && !Agree(a, b)
    ensures Shows(Next(before, b), b, Displaced(a, b.at, Returns(past, b)))
  {
    KeyIsNotEmpty(a);
  }

  lemma RecentEvents(events: seq<Event>, i: nat, j: nat)
    requires ClockRuns(events) && i < j < |events| && events[i].Seen? && events[j].Seen?
    ensures events[i].report.at <= events[j].report.at
  {
  }

  /** What one more report does to the past. */
  lemma PastMovesOn(events: seq<Event>, n: nat)
    requires 0 < n < |events| && events[n - 1].Seen? && events[n].Seen?
    ensures var a, b, past := events[n - 1].report, events[n].report, Remembered(events, n - 1);
            Remembered(events, n) ==
            if Forgets(a, b) then Nobody else if Agree(a, b) then past else Displaced(a, b.at, Returns(past, b))
  {
  }

  lemma ShowsOn(before: Lifecycle, a: Report, past: Past, b: Report)
    requires Shows(before, a, past) && a.at <= b.at
    ensures Shows(Next(before, b), b,
                  if Forgets(a, b) then Nobody else if Agree(a, b) then past else Displaced(a, b.at, Returns(past, b)))
  {
    if Forgets(a, b) {
      ForgettingShowsNobody(before, a, past, b);
    } else if Agree(a, b) {
      AgreementKeepsPast(before, a, past, b);
    } else {
      TakeoverRemembers(before, a, past, b);
    }
  }

  lemma CleanStart(b: Report)
    ensures Shows(Next(UNCLAIMED, b), b, Nobody)
  {
  }

  lemma {:induction false} FieldsTrackHistory(events: seq<Event>, n: nat)
    requires n < |events| && events[n].Seen? && ClockRuns(events)
    ensures Shows(After(events, n + 1), events[n].report, Remembered(events, n))
  {
    if n > 0 && events[n - 1].Seen? {
      FieldsTrackHistory(events, n - 1);
      RecentEvents(events, n - 1, n);
      PastMovesOn(events, n);
      ShowsOn(After(events, n), events[n - 1].report, Remembered(events, n - 1), events[n].report);
    } else {
      CleanStart(events[n].report);
    }
  }

  lemma {:induction false} QuietSinceTakeover(events: seq<Event>, n: nat)
    requires n < |events|
    ensures var m := LastTakeover(events, n); m.Some? ==> Quiet(events, m.value + 1, n + 1)
  {
    if Steady(events, n) {
      QuietSinceTakeover(events, n - 1);
    }
  }

  lemma {:induction false} LastTakeoverIsLast(events: seq<Event>, m: nat, n: nat)
    requires m <= n < |events| && TakesOver(events, m) && Quiet(events, m + 1, n + 1)
    ensures LastTakeover(events, n) == Some(m)
  {
    if m < n {
      assert Steady(events, n);
      LastTakeoverIsLast(events, m, n - 1);
    }
  }

  lemma ShownFlag(now: Lifecycle, last: Report, past: Past)
    requires Shows(now, last, past) && now.contestedWith.Some?
    ensures past.Displaced? && past.flipped && last.at - past.since < CONTEST_WINDOW
    ensures now.contestedWith == Some(Key(past.claim))
  {
  }

  lemma RememberedFlipBack(events: seq<Event>) returns (j: nat, m: nat)
    requires events != [] && events[|events| - 1].Seen?
    requires var past := Remembered(events, |events| - 1);
             past.Displaced? && past.flipped && events[|events| - 1].report.at - past.since < CONTEST_WINDOW
    ensures FlipBack(events, j, m)
    ensures events[m - 1].report == Remembered(events, |events| - 1).claim
  {
    m := LastTakeover(events, |events| - 1).value;
    assert CameBack(events, m);
    j := LastTakeover(events, m - 1).value;
    QuietSinceTakeover(events, |events| - 1);
    QuietSinceTakeover(events, m - 1);
  }

  /** A flip back that ends with the server flagged with `other`. */
  predicate DisplacedBy(events: seq<Event>, other: string, j: nat, m: nat)
    requires events != []
  {
    FlipBack(events, j, m) && other == Key(events[m - 1].report)
  }

  lemma FlagHasFlipBack(events: seq<Event>, other: string) returns (j: nat, m: nat)
    requires events != [] && ClockRuns(events)
    requires After(events, |events|).contestedWith == Some(other)
    ensures DisplacedBy(events, other, j, m)
  {
    var n := |events| - 1;
    FieldsTrackHistory(events, n);
    ShownFlag(After(events, n + 1), events[n].report, Remembered(events, n));
    j, m := RememberedFlipBack(events);
  }

  lemma FlipBackIsFlagged(events: seq<Event>, other: string, j: nat, m: nat)
    requires events != [] && ClockRuns(events) && DisplacedBy(events, other, j, m)
    ensures After(events, |events|).contestedWith == Some(other)
  {
    FlipBackIsRemembered(events, j, m);
    RememberedIsFlagged(events, events[m - 1].report, events[m].report.at);
  }

  lemma FlipBackIsRemembered(events: seq<Event>, j: nat, m: nat)
    requires events != [] && FlipBack(events, j, m)
    ensures Remembered(events, |events| - 1) == Displaced(events[m - 1].report, events[m].report.at, true)
    ensures events[|events| - 1].Seen? && events[|events| - 1].report.at - events[m].report.at < CONTEST_WINDOW
  {
    LastTakeoverIsLast(events, m, |events| - 1);
    LastTakeoverIsLast(events, j, m - 1);
  }

  lemma RememberedIsFlagged(events: seq<Event>, claim: Report, since: Instant)
    requires events != [] && events[|events| - 1].Seen? && ClockRuns(events)
    requires Remembered(events, |events| - 1) == Displaced(claim, since, true)
    requires events[|events| - 1].report.at - since < CONTEST_WINDOW
    ensures After(events, |events|).contestedWith == Some(Key(claim))
  {
    FieldsTrackHistory(events, |events| - 1);
    ShownFlip(After(events, |events|), events[|events| - 1].report, claim, since);
  }

  lemma ShownFlip(now: Lifecycle, last: Report, claim: Report, since: Instant)
    requires Shows(now, last, Displaced(claim, since, true)) && last.at - since < CONTEST_WINDOW
    ensures now.contestedWith == Some(Key(claim))
  {
  }

  /** A server is flagged exactly when its current claimant held it before, the claim it is
      flagged with displaced it, and it came back less than an hour after that takeover, still
      less than an hour ago. */
  lemma ContestedExactly(events: seq<Event>, other: string)
    requires events != [] && ClockRuns(events)
    ensures After(events, |events|).contestedWith == Some(other) <==>
            exists j: nat, m: nat :: DisplacedBy(events, other, j, m)
  {
    if After(events, |events|).contestedWith == Some(other) {
      var j, m := FlagHasFlipBack(events, other);
    }
    forall j: nat, m: nat | DisplacedBy(events, other, j, m)
      ensures After(events, |events|).contestedWith == Some(other)
    {
      FlipBackIsFlagged(events, other, j, m);
    }
  }

  /** Claims that only ever move on: no claimant that was displaced takes the server back. */
  ghost predicate OneWay(events: seq<Event>) {
    forall j, k | 0 <= j < k < |events| && TakesOver(events, j) && TakesOver(events, k) ::
      !Identified(events[j - 1].report, events[k].report)
  }

  lemma OneWayMovesAreNeverContested(events: seq<Event>)
    requires events != [] && ClockRuns(events) && OneWay(events)
    ensures After(events, |events|).contestedWith.None?
  {
    var n := |events| - 1;
    if events[n].Seen? {
      FieldsTrackHistory(events, n);
      var m := LastTakeover(events, n);
      assert m.Some? ==> !CameBack(events, m.value);
    }
  }

  /** One Agent that unbinds and binds again, however often and to whatever cluster, is one
      claimant and is never contested. */
  lemma OneAgentIsNeverContested(events: seq<Event>, uid: string)
    requires events != [] && ClockRuns(events) && uid != ""
    requires forall i | 0 <= i < |events| && events[i].Seen? :: Uid(events[i].report) == Some(uid)
    ensures After(events, |events|).contestedWith.None?
  {
    forall k | 0 <= k < |events| ensures !TakesOver(events, k) {
      if 0 < k && events[k].Seen? && events[k - 1].Seen? {
        assert Identified(events[k - 1].report, events[k].report);
      }
    }
    OneWayMovesAreNeverContested(events);
  }

  /** What one run of a job does about one server: applies its reports, or frees it by absence. */
  datatype Run = Reports(reports: seq<Report>) | Absent

  function Decide(before: Lifecycle, run: Run): Lifecycle {
    match run
    case Reports(reports) => Chained(before, reports)
    case Absent => UNCLAIMED
  }

  /** What a sequence of runs leaves stored: a run that would change nothing is not written. */
  function StoredAfter(runs: seq<Run>): Lifecycle {
    if runs == [] then UNCLAIMED
    else
      var before := StoredAfter(runs[..|runs| - 1]);
      Stored(before, Decide(before, runs[|runs| - 1]))
  }

  function EventsOf(run: Run): seq<Event> {
    match run
    case Reports(reports) => Events(reports)
    case Absent => [Freed]
  }

  function Happened(runs: seq<Run>): seq<Event> {
    if runs == [] then [] else Happened(runs[..|runs| - 1]) + EventsOf(runs[|runs| - 1])
  }

  /** The events of the runs that wrote something, in order. */
  function Recorded(runs: seq<Run>): seq<Event> {
    if runs == [] then []
    else
      var prefix, last := runs[..|runs| - 1], runs[|runs| - 1];
      var before := StoredAfter(prefix);
      if SameMembership(before, Decide(before, last)) then Recorded(prefix) else Recorded(prefix) + EventsOf(last)
  }

  function Events(reports: seq<Report>): seq<Event> {
    seq(|reports|, i requires 0 <= i < |reports| => Seen(reports[i]))
  }

  lemma {:induction false} AfterAppend(events: seq<Event>, more: seq<Event>, n: nat)
    requires n <= |events|
    ensures After(events + more, n) == After(events, n)
  {
    if n > 0 { AfterAppend(events, more, n - 1); }
  }

  lemma {:induction false} ChainIsHistory(events: seq<Event>, reports: seq<Report>)
    ensures After(events + Events(reports), |events| + |reports|) == Chained(After(events, |events|), reports)
    decreases |reports|
  {
    if reports == [] {
      assert events + Events(reports) == events;
    } else {
      var n := |reports| - 1;
      ChainIsHistory(events, reports[..n]);
      assert events + Events(reports) == (events + Events(reports[..n])) + [Seen(reports[n])];
      AfterAppend(events + Events(reports[..n]), [Seen(reports[n])], |events| + n);
    }
  }

  lemma DecideIsHistory(events: seq<Event>, run: Run)
    ensures var more := events + EventsOf(run);
            After(more, |more|) == Decide(After(events, |events|), run)
  {
    match run
    case Reports(reports) => ChainIsHistory(events, reports);
    case Absent =>
  }

  /** Skipping the writes that change nothing keeps the stored membership on the history of
      the runs that did write, whether they claimed or freed. */
  lemma {:induction false} StoredFollowsRecordedHistory(runs: seq<Run>)
    ensures StoredAfter(runs) == After(Recorded(runs), |Recorded(runs)|)
  {
    if runs != [] {
      var prefix, run := runs[..|runs| - 1], runs[|runs| - 1];
      StoredFollowsRecordedHistory(prefix);
      DecideIsHistory(Recorded(prefix), run);
    }
  }

  lemma {:induction false} RecordedHappened(runs: seq<Run>)
    ensures forall e | e in Recorded(runs) :: e in Happened(runs)
  {
    if runs != [] { RecordedHappened(runs[..|runs| - 1]); }
  }

  lemma ClockRunsBefore(events: seq<Event>, more: seq<Event>)
    requires ClockRuns(events + more)
    ensures ClockRuns(events) && ClockRuns(more)
    ensures forall e, f | e in events && f in more && e.Seen? && f.Seen? :: e.report.at <= f.report.at
  {
    var all := events + more;
    forall i, j | 0 <= i < j < |more| && more[i].Seen? && more[j].Seen? ensures more[i].report.at <= more[j].report.at {
      assert more[i] == all[|events| + i] && more[j] == all[|events| + j];
    }
    forall i, j | 0 <= i < j < |events| && events[i].Seen? && events[j].Seen?
      ensures events[i].report.at <= events[j].report.at
    {
      assert events[i] == all[i] && events[j] == all[j];
    }
    forall e, f | e in events && f in more && e.Seen? && f.Seen? ensures e.report.at <= f.report.at {
      var i :| 0 <= i < |events| && events[i] == e;
      var j :| 0 <= j < |more| && more[j] == f;
      assert all[i] == e && all[|events| + j] == f;
    }
  }

  lemma {:induction false} RecordedClockRuns(runs: seq<Run>)
    requires ClockRuns(Happened(runs))
    ensures ClockRuns(Recorded(runs))
  {
    if runs != [] {
      var prefix, last := runs[..|runs| - 1], EventsOf(runs[|runs| - 1]);
      ClockRunsBefore(Happened(prefix), last);
      RecordedClockRuns(prefix);
      RecordedHappened(prefix);
      var recorded := Recorded(prefix);
      forall i, j | 0 <= i < j < |recorded + last| && (recorded + last)[i].Seen? && (recorded + last)[j].Seen?
        ensures (recorded + last)[i].report.at <= (recorded + last)[j].report.at
      {
        if i < |recorded| <= j {
          assert recorded[i] in Happened(prefix) && last[j - |recorded|] in last;
        }
      }
    }
  }

  /** What is stored after any runs, claiming and freeing: the server is flagged exactly when, in
      the history of the runs that wrote, its claimant flipped back within the hour. */
  lemma StoredContestedExactly(runs: seq<Run>, other: string)
    requires ClockRuns(Happened(runs))
    ensures StoredAfter(runs).contestedWith == Some(other) <==>
              Recorded(runs) != [] && exists j: nat, m: nat :: DisplacedBy(Recorded(runs), other, j, m)
  {
    StoredFollowsRecordedHistory(runs);
    RecordedClockRuns(runs);
    if Recorded(runs) != [] { ContestedExactly(Recorded(runs), other); }
  }
}
