# Server Scan: verified model

Server Scan keeps one document per server and lets many writers share it. Collectors ingest it,
operators put it in maintenance, provisioners take an install lock on it, OpenShift jobs claim and
free it, two endpoints judge it anew, and a lookup hands servers out. This project models those
parts in Dafny and proves what they keep.

`dafny verify dfyconfig.toml` checks all of it.

## How it is laid out

- **The document and its store.** `Documents` is the server document. `Store` is the collection: a
  compare-and-set on `revision`, a conditional touch of the "last confirmed" stamps, an insert guarded
  by `uniq_vendor_serial`, a delete. `Store.Core` is a document without the stamps and live readings
  a touch may move.
- **The optimistic-concurrency protocol.** `Protocol` is a state machine in which every writer reads,
  decides and commits in separate steps, in any order, with any number of writers, while the clock
  advances and documents come and go. Its log of commits is a ghost history. `Protocol.Sound` is the
  invariant; `Ownership` and `InstallLock` draw the consequences. `Reservations` and `Operators` hold
  the services themselves; the argument `others` of their methods is whatever the other writers commit
  between the service's read and its write.
- **Ingest.** `IngestBuild` builds the document for one record, `IngestSkip` decides when only the
  stamps need refreshing, `IngestHistory` is carry-forward over whole histories. `IngestLoop` is
  correlation and one attempt, `Retry` the bounded loop over attempts, `IngestOutcome` what a call
  achieves, `Ingest` the service, `ResetWorker` the slots of the iDRAC resets. `NormalText` is what
  normalizing a name or a serial means. `Refinement` ties every service to the protocol: each write is
  a step of it, and each announcement of a name, verdict or state an entry of the audit trail it keeps
  unbroken.
- **OpenShift membership.** `Claims` is one observation applied to one server, `ContestedClaims` what
  the claim fields mean over whole histories, `Convergence` what repeating a run does to one server.
  `Membership` is what a run does to the collection, `Resolution` which server a sighting leads to and
  what becomes of the seen, the absent and the protected, `Repetition` what repeated runs do,
  `Reconciler` the service that carries a run out.
- **Availability.** `Filters` is the query language, `Availability` the query and the predicate that
  must agree with it, `Explanation` the counts given when nothing is available, `Refill` the draw loop.
- **Small concurrent and folding cores.** `SingleFlight` and `Sites`.

Inputs of the model, not part of it: the clock, new ids, the listing order of the store, random draws,
what a vendor manager answers, the serial read over SSH, and the classification, health, site, BMC and
token engines (function values in `IngestBuild.Engines`). Instants are integers in seconds.

## What a reader may find surprising

- **A stale writer can roll stamps back.** A writer that read before a touch stores the stamps it read.
  Every statement about the protocol is therefore "up to the touch stamps" (`Store.Core`).
- **Retired values hide servers from the draw.** A state, or an `INFO` severity, written before it was
  retired loads as today's value, and a missing field loads as its default, but the query compares what
  is stored. `Availability.QueryAgreesWithPredicate` gives the exact condition, and
  `Availability.RetiredValueIsMissed` a document that qualifies and is never drawn. For the same reason
  the counts of an explanation may fall short; `Explanation.ExplanationAddsUp` says exactly when.
- **Two Agents on one server are written whenever the pace of the job changes.** The contest flag a run
  raises depends on whether its reports came within an hour of each other, so a run that does and a later
  one that does not, or the reverse, differ. One Agent, or three and more, never cause more than two
  writes. `Convergence.TwoAgentsWriteExactly` counts the writes of two, `Convergence.TwoWritesExactlyWhen`
  says when they are at most two, and `Convergence.PaceDecidesTheWrites` has a schedule on either side.
- **A conflicting ingest ends a lookup.** The refill loop forgives a manager that fails, but an ingest that
  raises during a recheck leaves the whole lookup, even with servers already selected
  (`Refill.FillFromTiers`, `Refill.ConflictHidesVendorError`).
- **A record without a serial is not always a new server.** The opening comment of
  `backend/app/application/services/ingest.py` says so; the code correlates it by BMC host or by name
  for two of the collectors, and the model follows the code.
- **The BMC decides a server's site before its name does.** A comment in the same file calls the name
  the authority; the code asks the BMC first, and so does the model.
- **A BMC MAC is cleared, not kept, by a reachable server that reports none**, and a model name is kept
  by an unreachable one without being listed as unread. The model does the same.

## Model

| member | source | states |
|---|---|---|
| Store.TouchKeepsCore | backend/app/infrastructure/mongodb/server_repository.py:208-230 | Refreshing the "last confirmed" stamps of an unchanged server moves stamps and live readings and nothing else |
| Store.ReplaceIsExact | backend/app/infrastructure/mongodb/server_repository.py:170-206 | A compare-and-set writes if and only if the document exists at the expected revision and the write keeps machines unique; it never creates, and leaves every other document alone |
| Store.TouchIsExact | backend/app/infrastructure/mongodb/server_repository.py:208-230 | A touch happens if and only if the revision still matches; it reaches one document and keeps its revision, identity and core |
| Store.InsertIsExact | backend/app/infrastructure/mongodb/server_repository.py:145-168 | Inserting a new id adds exactly that document, or nothing when it names a machine already stored |
| Store.ServerRepository.UpsertWithRevisionCheck | backend/app/infrastructure/mongodb/server_repository.py:170-206 | Tells a conflict, a missing document and a duplicate machine apart, and writes in no such case |
| Store.ServerRepository.TouchSeen | backend/app/infrastructure/mongodb/server_repository.py:208-230 | Answers whether the touch matched, and changes the document only then |
| Reservations.ReservationService.Reserve | backend/app/application/services/reservation_service.py:87-161 | A live lock of another claim is refused and recorded; otherwise the lock is taken by compare-and-set on the revision read, whatever others committed meanwhile; a caller not granted the lock changes nothing |
| Reservations.ReservationService.Release | backend/app/application/services/reservation_service.py:208-257 | An unheld server is left alone; a held lock is given back to the holder and workflow written in it, or to a release that names nobody, if the document has not moved; to any other the answer is a refusal and the store stays as it was |
| Reservations.LockAnswersToItsHolder | backend/app/application/services/reservation_service.py:212-270 | Read off a lock's fields: it may be taken when unheld or by the claim in it, and given back, while held, by that claim or by a release naming nobody |
| Reservations.GrantedLockSays | backend/app/application/services/reservation_service.py:126-139 | A granted lock names its holder, cluster, environment, namespace, workflow and expiry; nothing else of the document moves but revision and stamp |
| Reservations.AnswerTellsWhatHappened | backend/app/application/services/reservation_service.py:140-161 | A caller is told of a lost race exactly when the revision moved, of a missing server exactly when it is gone |
| Reservations.GrantedLockExcludes | backend/app/application/services/reservation_service.py:106-135 | From being granted until its expiry a claim shuts out every other claim and no repeat of itself, and an extension keeps `created_at` |
| Reservations.ReleaseUndoesReserve | backend/app/application/services/reservation_service.py:212-243 | Reserve then release gives the document back with the lock cleared, two revisions on, free for anyone |
| Operators.MaintenanceService.Enable | backend/app/application/services/maintenance_service.py:38-90 | Opens or updates the window by compare-and-set, keeping who opened it and when, and records which of the two it was |
| Operators.MaintenanceService.Disable | backend/app/application/services/maintenance_service.py:92-127 | Closes the window by compare-and-set and records it only if one was open |
| Operators.WindowKeepsItsOpening | backend/app/application/services/maintenance_service.py:64-76 | Updating an open window keeps its opener and opening time; reopening after a disable starts afresh |
| Operators.WindowOpensAndCloses | backend/app/application/services/maintenance_service.py:64-115 | Enabling opens a window with its reason, end and opener; disabling leaves only the moment it closed |
| Operators.VerdictsLandWhereTheyBelong | backend/app/application/services/pipeline.py:27-48 | Each part of a verdict lands in its own field, the classification counts one up, and nothing else moves |
| Operators.AnswerTellsWhatHappened | backend/app/infrastructure/mongodb/server_repository.py:170-206 | The same for the other writers: what they are told is what kept the write from the store |
| Operators.Reevaluation.ReclassifyServer | backend/app/api/v1/servers.py:837-869 | Stores the new verdict by compare-and-set, and announces it exactly when the write went through and the type changed |
| Operators.Reevaluation.RecalculateServerHealth | backend/app/api/v1/servers.py:907-931 | The same for the health verdict and its overall severity |
| Protocol.CommitReplacesWhatWasRead | backend/app/application/services/ingest.py:842-919 | In any interleaving, a commit that goes through replaces exactly the version its writer read, up to the touch stamps |
| Protocol.VersionExtendsLine | backend/app/application/services/reservation_service.py:106-152 | Every commit extends the line of versions of its document by one revision, built from the version before it |
| Protocol.StepIsSound | backend/app/application/services/ingest.py:868-905 | Every step of every writer keeps the invariant: what any writer has read is, at its revision, what the history says, up to the touch stamps |
| Protocol.EveryRunIsSound | backend/app/application/services/ingest.py:868-905 | Every schedule of ingests, touches, locks, maintenance, membership, re-evaluations, inserts and deletes keeps it, for any number of writers |
| Protocol.WritersAreFree | backend/app/application/services/ingest.py:868-905 | The schedules leave nothing out: in any state the clock, a new reader, any writer under way and a deletion may come next |
| Ownership.OnlyTheOwnerMovesIt | backend/app/application/services/ingest.py:1308-1318 | Reservation, maintenance, membership, name, classification and health each move only when their own writer commits, and from the value stored at that moment |
| Ownership.NoUpdateIsLost | backend/app/application/services/ingest.py:1308-1318 | After any schedule every part of every document is what its last owner committed |
| Ownership.AuditTrailIsUnbroken | backend/app/application/services/ingest.py:921-986 | Rename, classification, health and OpenShift-state events of a document chain: each starts where the one before ended, and the last ends at the stored value |
| Ownership.TrailIsAChain | backend/app/application/services/openshift_membership.py:755-775 | The chain, over any log in which every entry follows the version before it |
| Ownership.IdentityIsStable | backend/app/application/services/ingest.py:1051-1058 | Once a document has a serial, no step changes that serial or its vendor |
| Ownership.IdentityOverRuns | backend/app/application/services/ingest.py:1051-1058 | The same between any two moments of any schedule |
| Ownership.StaysGone | backend/app/application/services/ingest.py:891-905 | A document once gone is gone at every later moment of the schedule, whatever a writer that had read it does |
| Ownership.MachinesStayUnique | backend/app/infrastructure/mongodb/indexes.py:80-86 | In no schedule do two documents with a serial agree on it and on the vendor |
| InstallLock.NoLiveLockIsTaken | backend/app/application/services/reservation_service.py:106-145 | In any interleaving, no reserve commit replaces a lock of another claim that is live at the commit, and an extension keeps `created_at` |
| InstallLock.ReleaseLandsOnItsOwnLock | backend/app/application/services/reservation_service.py:212-237 | In any interleaving, a release that commits clears the very lock it read, and one naming a holder only a lock of that holder and workflow |
| InstallLock.RefusalChangesNothing | backend/app/application/services/reservation_service.py:106-152 | A writer that is refused, or loses its race, leaves every document and the history as they were |
| InstallLock.OneClaimAtATime | backend/app/application/services/reservation_service.py:87-161 | Between commits of two different claims on one server, the first was released or an expiry it had promised had passed |
| InstallLock.ExclusionInEveryRun | backend/app/application/services/reservation_service.py:87-161 | Mutual exclusion of the install lock over every schedule |
| Claims.KeysTellClaimsApart | backend/app/application/services/openshift_membership.py:87-100 | One job's claims for different clusters are different claims, and a claim for no cluster is the job's own |
| ContestedClaims.ContestedExactly | backend/app/application/services/openshift_membership.py:122-200 | A server is flagged if and only if its claimant held it before, the named claim displaced it, and it came back within the hour and less than an hour ago |
| ContestedClaims.OneWayMovesAreNeverContested | backend/app/application/services/openshift_membership.py:148-200 | Any chain of moves in which no displaced claimant returns is never flagged |
| ContestedClaims.OneAgentIsNeverContested | backend/app/application/services/openshift_membership.py:122-145 | One Agent binding and unbinding, to whatever clusters, is one claimant |
| ContestedClaims.StoredFollowsRecordedHistory | backend/app/application/services/openshift_membership.py:707-753 | Skipping writes that change nothing leaves the stored membership on the history of the runs that did write, whether they claimed the server or freed it |
| ContestedClaims.StoredContestedExactly | backend/app/application/services/openshift_membership.py:122-200 | The stored flag, after any runs that claim and free: set if and only if in the recorded history the claimant flipped back within the hour |
| Convergence.RepeatedRunsWriteTwice | backend/app/application/services/openshift_membership.py:625-655 | Repeating one run over one server, seen through one Agent or through three and more with distinct UIDs, writes it at most twice in all, from any stored state, whatever time passes between runs or within one |
| Convergence.TwoAgentsWriteExactly | backend/app/application/services/openshift_membership.py:148-200 | Through two Agents, from any stored state: the first run's write, if it writes, and one for every later change of pace, that is between runs whose reports are within the hour and runs whose are not |
| Convergence.FightWritesOnTurns | backend/app/application/services/openshift_membership.py:625-705 | A server two Agents fight over is written exactly when the pace of its runs changes |
| Convergence.TwoWritesExactlyWhen | backend/app/application/services/openshift_membership.py:625-705 | Two Agents that find a server unclaimed cause at most two writes if and only if, after the first run, no run within the hour is followed by one that is not |
| Convergence.BriskRunsWriteTwice | backend/app/application/services/openshift_membership.py:625-705 | While every run stays within the hour two Agents cause at most two writes, from any stored state |
| Convergence.BoundMeansInstalled | backend/app/application/services/openshift_membership.py:625-655 | After any number of runs, at whatever times, the server is stored as installed if and only if some report of it was bound |
| Convergence.OrderedAppliesAll | backend/app/application/services/openshift_membership.py:648-652 | A run applies every report as often as it was seen, no bound one before an unbound one |
| Convergence.KeepsOrder | backend/app/application/services/openshift_membership.py:648-652 | Reports alike in being bound are applied in the order they were seen |
| Convergence.TwoAgentsFight | backend/app/application/services/openshift_membership.py:148-200 | On a server the second Agent holds, a run of two flags the first one's claim if and only if its reports are less than an hour apart, and leaves every other compared field the same |
| Convergence.PaceDecidesTheWrites | backend/app/application/services/openshift_membership.py:657-705 | Witnesses for any two Agents: four runs of which only the third pauses write four times, the same four all pausing write once |
| Repetition.RevisionsCountWrites | backend/app/application/services/openshift_membership.py:282-355 | Over repeated runs on the whole collection a document's revision rises by exactly the writes its reports cause, and its membership is what they leave |
| Repetition.RepeatedReconcilesWriteTwice | backend/app/application/services/openshift_membership.py:282-355 | A server seen through one Agent or three and more moves by at most two revisions however often the job runs; through two, from unclaimed, if and only if no later run slows down; it ends installed if and only if some report was bound |
| Repetition.AbsentIsFreedOnce | backend/app/application/services/openshift_membership.py:335-341 | A server the job does not see moves by at most one revision, and by none outside its scope |
| Membership.MatchHasEvidence | backend/app/application/services/openshift_membership.py:357-447 | A host is matched only by a serial or hostname exactly one server has, or, with no way to read a serial, to the first of several with its hostname |
| Membership.HeldAreCandidates | backend/app/application/services/openshift_membership.py:410-423 | Only a duplicate hostname with an unreadable serial protects servers, and then the two candidates looked up |
| Resolution.SerialComesFirst | backend/app/application/services/openshift_membership.py:449-486 | A sighting with a serial leads to the one owner of that serial, else to the one server of its hostname, else to nobody |
| Resolution.NameComesNext | backend/app/application/services/openshift_membership.py:386-408 | A sighting without one leads to the one server of its hostname; where nothing can be read, to the first listed under it, or to nobody |
| Resolution.ReadingComesLast | backend/app/application/services/openshift_membership.py:391-447 | An ambiguous or unknown hostname leads to the owner of the serial read over SSH; an unreadable one protects the candidates |
| Resolution.BothCandidatesAreHeld | backend/app/application/services/openshift_membership.py:410-423 | When exactly two servers share a sighted hostname whose serial cannot be read, both are protected, whatever else the run sees |
| Resolution.AmbiguousServersStay | backend/app/application/services/openshift_membership.py:335-341 | Neither of them changes over it, in scope or not, unless some sighting does lead to it |
| Resolution.AbsentExactly | backend/app/application/services/openshift_membership.py:335-341 | A server no sighting leads to is freed if it stores the job's cluster or MCE and nothing protects it, and is otherwise left alone |
| Resolution.SeenOnceIsClaimed | backend/app/application/services/openshift_membership.py:325-333 | A server one sighting leads to takes what that sighting observed, under the name it was found by, reported by this job |
| Resolution.SummaryCounts | backend/app/application/services/openshift_membership.py:307-341 | The summary counts the sightings matched and matched by serial, and per hostname those unmatched and unreadable |
| Membership.TallyBalances | backend/app/application/services/openshift_membership.py:307-323 | Observed is matched plus unmatched, and the unresolved are among the unmatched |
| Membership.WrittenAtMostOnce | backend/app/application/services/openshift_membership.py:307-341 | A run moves each server by at most one revision and in membership only: seen ones take the chained result, absent ones in scope and unprotected are freed with their history, all others stay |
| Membership.ResolveIgnoresMembership | backend/app/application/services/openshift_membership.py:383-486 | Where a host leads does not depend on anything a run changes |
| Membership.SecondRunFreesNone | backend/app/application/services/openshift_membership.py:335-341 | Repeating a run on what it left frees nobody |
| Reconciler.OpenShiftMembershipService.Reconcile | backend/app/application/services/openshift_membership.py:282-355 | The real run leaves exactly the specified collection, a dry run leaves the collection alone, both return the same summary; one state event for every server whose state changed, and no other |
| Reconciler.OpenShiftMembershipService.ResolveSighting | backend/app/application/services/openshift_membership.py:357-486 | Resolution as the service does it, with what it notes in the summary and the protected ids |
| Reconciler.OpenShiftMembershipService.ListPage | backend/app/infrastructure/mongodb/server_repository.py:348-431 | A page is the first matches from a position, with whether more follow, and nothing is skipped between pages |
| Reconciler.OpenShiftMembershipService.FindByHostname | backend/app/application/services/openshift_membership.py:541-563 | Up to two servers of one hostname |
| Reconciler.OpenShiftMembershipService.FindBySerial | backend/app/application/services/openshift_membership.py:565-596 | The one server a serial names, or none when several carry it |
| Reconciler.OpenShiftMembershipService.ClaimedBy | backend/app/application/services/openshift_membership.py:598-623 | Every server in scope, across all pages |
| Reconciler.OpenShiftMembershipService.ApplyAll | backend/app/application/services/openshift_membership.py:625-655 | The reports of one server, unbound first, chained in memory and written once |
| Reconciler.OpenShiftMembershipService.Write | backend/app/application/services/openshift_membership.py:724-775 | Writes, bumps and announces if and only if one of the nine compared fields differs |
| IngestBuild.BuildKeeps | backend/app/application/services/ingest.py:988-1342 | A built document keeps what other writers own, its id and creation, what an absent engine would judge, and a known serial with its vendor |
| IngestBuild.BuildIsNewborn | backend/app/application/services/ingest.py:1026-1032 | A new server starts at revision one, unlocked, unclaimed and out of maintenance |
| IngestBuild.BuildRemembersSerial | backend/app/application/services/ingest.py:1051-1058 | A run that reads no serial keeps the stored one |
| IngestHistory.LastRecordShows | backend/app/application/services/ingest.py:1030-1318 | What is always read, the document says as the last record does: name, tags, manager, identifiers, attachments, reachability, all stamped by this run |
| IngestHistory.SerialShows | backend/app/application/services/ingest.py:1051-1066 | A record with a serial says who the machine is; one without leaves what is stored but for a system UUID of its own |
| IngestHistory.EnginesJudgeTheBuild | backend/app/application/services/ingest.py:1320-1341 | The classifier judges this run's name, vendor, collector, site, serial and model, the health policies the server so classified, the index what comes out |
| IngestSkip.SkipIsExact | backend/app/application/services/ingest.py:868-917 | Touching stores what was built, but for revision, update stamp and counter, if and only if the stable views agree |
| IngestSkip.TouchStoresWhatWasBuilt | backend/app/application/services/ingest.py:202-252 | With equal stable views the touched document is the one a full write would store and the one `_as_stored` returns |
| IngestSkip.SkippedServersAreSilent | backend/app/application/services/ingest.py:914-917 | A skipped server had no transition to announce |
| IngestSkip.WritesAnnounceEveryChange | backend/app/application/services/ingest.py:921-986 | A full write announces a rename or a changed verdict exactly when the stored value changes, from the old value to the new |
| IngestHistory.StoredRemembers | backend/app/application/services/ingest.py:1030-1277 | After any sequence of runs every carried field holds the last value reported, or its default; `unreachable_since` is the start of the current streak and `last_seen_at` the last time anything was read |
| IngestHistory.UnreadIsOfTheLastRun | backend/app/application/services/ingest.py:350-379 | The stored `unread_fields` holds the path of a field if and only if the last run did not report it |
| IngestHistory.UnreadIsExact | backend/app/application/services/ingest.py:1030-1244 | Field by field, what counts as reported |
| IngestHistory.StreakIsUnbroken | backend/app/application/services/ingest.py:1261-1277 | The streak's start is null if and only if the last run reached the server; else no run since reached it and the one before did |
| NormalText.NormalizeIsExact | backend/app/domain/services/normalize.py:19-33 | A normalized text is the letters of the original in lower case, as words one space apart |
| IngestHistory.BmcSiteIsRemembered | backend/app/application/services/ingest.py:1246-1259 | Where BMC prefixes are configured a server stays at the site its BMC last named; name and profile speak only without one |
| IngestHistory.OlderDocumentsKeepTheirSite | backend/app/application/services/ingest.py:1249-1259 | A document from before BMC sites were stored lends its site only where neither name nor profile names one; without prefixes nothing is kept |
| Retry.OneChangeAtMost | backend/app/application/services/ingest.py:842-919 | Whatever the other writers do between a call's lookups, before its write and before it looks again, it makes at most one change in at most three attempts, built from what that attempt's lookups found; one that gives up has made none |
| Retry.EarlierAttemptsLost | backend/app/application/services/ingest.py:842-911 | A call starts over only after an attempt whose write did not go through, and gives up only after three |
| IngestLoop.IngestChangesOnce | backend/app/application/services/ingest.py:842-919 | The same for ingest: one that raises leaves what the others left, one that returns made its last attempt's write |
| IngestLoop.NextAttemptLooksAgain | backend/app/application/services/ingest.py:842-907 | After a lost race the next attempt starts from what the others left since, not from what the failed write met |
| Ingest.IngestService.IngestOne | backend/app/application/services/ingest.py:802-919 | The loop as the service runs it, with its result, its attempts and its audit events, the other writers acting at every point where it waits; an unknown vendor is refused before anything is read; when the others keep the protocol, what it answers is what is then stored, under the record's name |
| IngestLoop.CorrelationIsSafe | backend/app/application/services/ingest.py:842-861 | Whatever document correlation finds may be written over by the record it was found for |
| IngestLoop.SerialReachesItsMachine | backend/app/application/services/ingest.py:747-776 | A record with a serial reaches its own machine's document or one without a serial |
| IngestLoop.AttemptFits | backend/app/application/services/ingest.py:863-889 | What an attempt hands to the store is a job of the protocol that fits the document it read |
| IngestLoop.WriteIsExact | backend/app/application/services/ingest.py:868-905 | An attempt changes the one document it read, or adds one, or changes nothing |
| IngestOutcome.StoredMachineIsFound | backend/app/application/services/ingest.py:732-745 | A stored machine is found by its serial and vendor, and only it |
| IngestOutcome.AttemptIsOfTheTask | backend/app/application/services/ingest.py:842-871 | An attempt is built of this record at its own moment, under the vendor of the document found when the record has no serial |
| IngestOutcome.BmcStubIsFound | backend/app/application/services/ingest.py:747-776 | For the Redfish collector a record is matched by BMC host if and only if a document of that host is there to be taken |
| IngestOutcome.NameStubIsFound | backend/app/application/services/ingest.py:778-800 | For the OpenManage collector a record is matched by name if and only if a serial-less document of that manager and name is there |
| IngestOutcome.NoStubElsewhere | backend/app/application/services/ingest.py:842-855 | For every other collector a record without a stored machine is a new server |
| IngestOutcome.WriteShowsWhatWasBuilt | backend/app/application/services/ingest.py:868-905 | The stored document then shows what was built; it keeps its revision exactly when it was complete and showed that before, and is otherwise what was built |
| IngestOutcome.QuietCallStoresItsVeryAnswer | backend/app/application/services/ingest.py:863-919 | When the document is as it was read, what is stored is exactly what is answered, stamps and readings too |
| IngestOutcome.CallConcludesRight | backend/app/application/services/ingest.py:842-919 | A call among writers that keep the protocol stores what it answers; `created` means its lookups found nothing, `unchanged` that what they found was complete and showed it all; and it tells every change between what it found and what it built |
| IngestLoop.NoOtherMachineIsOverwritten | backend/app/application/services/ingest.py:747-800 | No record with a serial overwrites another machine's document, whatever moved since the read |
| Refinement.IngestWritesItsPlan | backend/app/application/services/ingest.py:873-889 | Each of the three writes of an ingest attempt is its job's step of the protocol, whatever the write comes to |
| Refinement.IngestFlightMayBegin | backend/app/application/services/ingest.py:842-871 | Correlating and building is a read, or a birth, the protocol allows |
| Refinement.MembershipWritesItsPlan | backend/app/application/services/openshift_membership.py:755-761 | A membership write that changes anything is its job's step of the protocol |
| Refinement.IngestTellsTheTrail | backend/app/application/services/ingest.py:921-986 | The rename, classification and health events of an ingest are its commit's entries of the audit chain |
| Refinement.MembershipTellsTheTrail | backend/app/application/services/openshift_membership.py:763-775 | The state event of a membership write is its commit's entry of the audit chain |
| Refinement.ReserveWritesItsPlan | backend/app/application/services/reservation_service.py:87-161 | What reserving stores is its job's step of the protocol, and where it refuses that step is to stop |
| Refinement.ReleaseWritesItsPlan | backend/app/application/services/reservation_service.py:208-243 | The same for releasing |
| Refinement.MaintenanceWritesItsPlan | backend/app/application/services/maintenance_service.py:64-121 | The same for opening, updating and closing a maintenance window |
| Refinement.VerdictsWriteTheirPlans | backend/app/api/v1/servers.py:837-910 | The same for reclassifying and for recalculating health |
| Refinement.ServiceCommitIsExact | backend/app/infrastructure/mongodb/server_repository.py:170-206 | Against whatever others left, each of these moves its document alone to the next revision of what it read, or nothing |
| Refinement.ReclassifyTellsTheTrail | backend/app/api/v1/servers.py:861-869 | The event of a reclassification is its commit's entry of the audit chain |
| Refinement.RecalculateTellsTheTrail | backend/app/api/v1/servers.py:922-931 | The event of a health recalculation is its commit's entry of the audit chain |
| ResetWorker.SlotsAreConserved | backend/app/application/services/ingest.py:510-554 | Free slots, resets in flight, resets done and slots lost with their worker add up to the maximum over every interleaving; the free count is never negative |
| ResetWorker.NothingIsLost | backend/app/application/services/ingest.py:539-554 | While no worker dies: free plus in flight plus done is the maximum |
| ResetWorker.TakenInOrder | backend/app/application/services/ingest.py:529-537 | Servers are taken in the order they were admitted, each once |
| ResetWorker.SlotFollowsTheReset | backend/app/application/services/ingest.py:539-554 | A server taken while a slot is free is asked about and takes the slot, one taken when none is left is dropped; a reset not needed gives its slot back |
| ResetWorker.FiveWorkersShare | backend/app/application/services/ingest.py:506-527 | Five workers take from the queue, each while it has no reset in hand |
| Filters.MergeAsksForBoth | backend/app/application/services/available_servers.py:479-494 | Merging filter dictionaries that share no key asks for both |
| Filters.CallerAsks | backend/app/application/services/available_servers.py:582-598 | A caller's name filter asks its question, or either of two with an alias |
| Availability.QueryAgreesWithPredicate | backend/app/application/services/available_servers.py:189-231 | The merged query matches if and only if the predicate holds, equivalently no reason is given, of a document spelled in today's values; others are never drawn |
| Availability.RetiredValueIsMissed | backend/app/domain/models/health.py:18-48 | A document reading `INFO` qualifies and is not drawn |
| Availability.LoadsAsSpelled | backend/app/domain/models/openshift.py:117-133 | Stored values load as spelled, retired ones as their successors, missing ones as their defaults |
| Availability.NoReasonMeansQualified | backend/app/application/services/available_servers.py:234-311 | The reasons are empty if and only if the server qualifies |
| Availability.UnassignableReasons | backend/app/application/services/available_servers.py:234-311 | The reasons, in order, one for each failed condition |
| Availability.DefaultTiers | backend/app/application/services/available_servers.py:36-46 | By default no critical server and none of unknown health is handed out |
| Availability.UnreservedAsks | backend/app/application/services/available_servers.py:161-186 | The `$nor` clause admits a document if and only if its lock is not live at that instant |
| Availability.NicMacsAsk | backend/app/application/services/available_servers.py:138-158 | The array-index and `$ne` clauses admit a document if and only if enough MACs were read |
| Explanation.CountsPartition | backend/app/application/services/available_servers.py:555-575 | Every match is counted once or not at all: the counts and the uncounted add up to the total |
| Explanation.StepCounts | backend/app/application/services/available_servers.py:563-570 | The query of a step, with its growing `$nor` list, counts exactly the matches whose first reason it is |
| Explanation.ExplanationAddsUp | backend/app/application/services/available_servers.py:505-580 | When nothing is assignable the counts add up to the matches if and only if no match is overlooked for a retired or missing value |
| Explanation.FirstStepIsFirstReason | backend/app/application/services/available_servers.py:234-311 | The step that counts a document is the first reason the service gives for it |
| Explanation.CodesAreNonZero | backend/app/application/services/available_servers.py:569-580 | The codes returned are exactly the non-zero steps |
| Explanation.ExplainNoneAssignable | backend/app/application/services/available_servers.py:555-575 | The counting loop computes those counts |
| Refill.FillFromTiers | backend/app/application/services/available_servers.py:600-682 | The call aborts if and only if a recheck's ingest raises, and that is then its last try. Always: a server handed out as live is the one just ingested, any other the candidate as stored with nobody to ask; at most `count` results, one for each try whose server qualified; no candidate tried twice; tiers in order, at most three draws each, each for what is missing. Unless it aborts: every drawn candidate is tried, a short result means every tier was spent, and a vendor error is raised if and only if nothing was selected and some recheck failed |
| Refill.RecheckAll | backend/app/application/services/available_servers.py:648-675 | Every candidate of a draw is rechecked unless an ingest raises; leaving the loop because the request is filled drops none |
| Refill.ItemsQualified | backend/app/application/services/available_servers.py:656-673 | Everything returned is the fresh server of some recheck, and qualified at that moment |
| Refill.TriesReadTheirReports | backend/app/application/services/available_servers.py:684-741 | What a recheck comes to, read off the manager's report: the server just ingested, the stored candidate, gone, failed, or a fault |
| Refill.EveryPassIsReturned | backend/app/application/services/available_servers.py:656-673 | As many results as tries whose server qualified |
| Refill.ItemAt | backend/app/application/services/available_servers.py:656-673 | Each result is the server of the try that brought the count to its place, and that server qualified then |
| Refill.FirstFailure | backend/app/application/services/available_servers.py:648-682 | The error raised is that of the first manager that failed |
| Refill.AbortsExactly | backend/app/application/services/available_servers.py:684-741 | Of tries that stop at the first fault, the conclusion is an abort if and only if one of them is a fault |
| Refill.ConflictHidesVendorError | backend/app/application/services/available_servers.py:648-682 | When one candidate's manager fails and the next one's ingest keeps conflicting, the caller sees the conflict, not the vendor error, though nothing was selected |
| SingleFlight.AtMostOneRunsPerKey | backend/app/infrastructure/singleflight.py:74-96 | In every schedule an unfinished task is registered under its key, so at most one runs per key, and everyone served got their task's outcome |
| SingleFlight.CallJoinsItsKey | backend/app/infrastructure/singleflight.py:88-96 | A call joins the task in flight for its key and starts none, or starts one and registers it |
| SingleFlight.EveryCallerGetsItsKey | backend/app/infrastructure/singleflight.py:88-96 | In every schedule, whoever asked for a key waits for and is served by a computation of that key |
| SingleFlight.CleanUpIsExact | backend/app/infrastructure/singleflight.py:104-119 | A clean-up removes its own task's entry, no other, and nothing else removes one |
| SingleFlight.CancellationIsPrivate | backend/app/infrastructure/singleflight.py:74-101 | Leaving every caller's cancellation out of a schedule changes no task, no entry and no other caller's answer |
| SingleFlight.DrainEmptiesTheTable | backend/app/infrastructure/singleflight.py:122-132 | After a drain with no new call every running task was told to stop and is awaited, and once its clean-ups have run the table is empty |
| SingleFlight.Table.Coalesce | backend/app/infrastructure/singleflight.py:74-96 | Joins the task in flight, or starts and registers one |
| SingleFlight.Table.CleanUp | backend/app/infrastructure/singleflight.py:104-119 | Removes the finished task's entry if it is still that task's |
| SingleFlight.Table.Drain | backend/app/infrastructure/singleflight.py:122-132 | Cancels every registered task and nothing else |
| Sites.Pivot.Fold | backend/app/api/v1/sites.py:163-221 | Every configured site holds the servers of the rows that name it, every record is the tally of its rows, and the fleet that of all |
| Sites.SiteHoldsItsRows | backend/app/api/v1/sites.py:195-200 | A configured site's total is that of the rows naming it; the unassigned bucket holds those naming no site or none configured |
| Sites.CountIsOfTheRows | backend/app/api/v1/sites.py:127-219 | Every number of every record, sliced or not, counts the rows whose own fields name that site, slice and count, unknown values under the catch-all |
| Sites.SitesGoByTheirNames | backend/app/api/v1/sites.py:176-180 | Every site of the catalog goes by its configured name |
| Sites.TallyMeansCounts | backend/app/api/v1/sites.py:127-148 | Every number of a tally is the number of servers its rows count under it |
| Sites.PivotConserves | backend/app/api/v1/sites.py:163-221 | Fleet total is the sum of the row counts and of the site totals; health counts and both slice families sum to the total of each record |
| Sites.SitesAddUp | backend/app/api/v1/sites.py:196-219 | Every count of the fleet, whole or sliced, is the sum of that count over the sites |
| Sites.VendorsFallShort | backend/app/api/v1/sites.py:146-148 | Vendor counts fall short of a total by exactly the rows of unknown vendor |
| Sites.EveryBucketHasOneWord | backend/app/domain/enums/core.py:16-97 | Every vendor, severity, installation type and state is spelled by one word, its own |
| Sites.RetiredSeverityIsUnknown | backend/app/api/v1/sites.py:141-144 | Servers stored with the retired `INFO` are counted under unknown, in every breakdown they belong to |

## Left out

- The database, cache, message and vendor protocols: each is its contract, or an input.
- Text normalization beyond ASCII: `NormalizeText` lower-cases `A` to `Z` and knows four white-space characters.
- The encoding of instants as strings and the comparison of those strings.
- Stamps that a stale writer rolls back: allowed by every statement, not prevented.
- Crashes between a commit and its audit event, and clock skew between replicas.
- Ingest of records whose converters fail, the per-run counters and the changed-path tally.
- The whole-document test for missing fields: `IngestLoop.Vintage` says whether a stored document is complete.
- In-place updates of the pivot's shared records: records are values held in a map, so aliasing between them is not modelled.
- A computation that asks for its own key while an eager task factory is still creating its task.
- The lookup by exact name, the recheck's choice of provider and the capacity-token aliases: easy beside the draw.
- Messages for people: reasons are codes.
- Prune guards, bootstrap re-sync, the seed tool, authentication, metrics, list cursors and the frontend.
- Reconciler.OpenShiftMembershipService.Reconcile: no other writer runs during the call; how its writes meet others is `Protocol`, where a membership write is one more compare-and-set.
- Refill.FillFromTiers: relies on one draw not returning a document twice, which the store is asked for but does not itself check.
- Failures of the store itself: every call answers, and a lookup is abandoned only for a fault of an ingest.
- Convergence.RepeatedRunsWriteTwice: leaves out exactly two Agents, for whom two writes are not always enough; `Convergence.TwoAgentsWriteExactly` counts theirs.
