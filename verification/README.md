# Verified model of the one-run, observation, ledger and recovery protocols

A Dafny 4.11 model of the stateful core of this repository, with proofs about every run of it.
`dafny verify dfyconfig.toml` checks the whole project.

- **One measured run per build** (`RunLockMarkers`, `RunLockProtocol`, `RunLockTheorems`, `RunLockCourse`). Any number of tabs
  share one storage cell, a short run lock and a long owner lock requested with `ifAvailable` (section 3.2 of the
  Web Locks API). The stored record, its reader and its two guarded writers are modelled down to key sets; the
  protocol is a state machine in which a tab may crash, be disposed or have any awaited call throw at any point,
  also between reading and writing the cell. A tab is one activation of the page. Storage is taken to be one
  shared cell whose reads see the latest write. Besides what never happens, `RunLockCourse` tells from a tab's own
  actions what its run is recorded as, whatever the other tabs do.
- **The measured sequence** (`FixedSequence`, `ConsumerHolds`, `EpochGuard`, `RegistrationGuard`). Four calls against
  the append-only trace ledger among arbitrary foreign activity, overlapping appends included; the holds around them
  while others hold too; and the epoch discipline of the readiness effect and of catalog registration.
- **The spend ledger** (`LedgerModel`, `LedgerGuard`, `LedgerAccounting`, `LedgerReplies`, `LedgerQuarantine`,
  `LedgerMigration`, `LedgerRuns`, `LedgerOutcomes`, `LedgerSchedule`, `LedgerChain`). Each Lua script is one function on the stored
  state; `LedgerGuard` does the checks and writes of each call script in its own order on mutable hashes. The counters
  are compared with an independent count of the token records. The four migration scripts are one function of the
  number of calls they list, the policy expected of each call, and the limits they write; what a grant, a settlement,
  a subject and a receipt still mean is stated over all later runs of calls and migrations. Identifiers and digests
  are opaque numbers. The service derives a token id from the run, the ordinal of the call and a secret, and refuses
  any other (lib/probe/run-continuation.server.ts:211-240, lib/probe/service.ts:782-792), so an id that was dispatched
  is not issued again as long as one run and ordinal stand for one authorised subject; statements "with fresh ids"
  assume that.
- **The live observation runner and its journey** (`ObservationRunner`, `Journey`). Gate callback, registry
  callback, timer and awaited server calls interleave freely, the requests for the next step among them, of which
  any number may be under way, and any answer may be late or lost. The server's handoff record of a run is started
  once and ended once; the start control is taken to be activated once per received session, because its guard is read
  before an await.
- **The crash-recovering clients** (`FallbackLoop`, `ScoredRecovery`, `ScoredStore`). A bounded loop against a
  hidden ordinal with lossy responses; a recovery record that survives a crash between any two file operations;
  and the server contract of the scored run.
- **Bounded verifiers** (`Ancestry`, `ProofPack`). The single-parent walk, and the canonical base64url check
  (sections 3.5 and 5 of RFC 4648).

Where a stated or expected property does not hold of the code, the model keeps the code, gives a concrete run, and
states the exact condition:

- issuing over the id of a dispatched call loses that call's record (`IssueKeepsBooksIff`, `ReusedIdBreaksBooks`);
  the counter laws and the spending bound hold regardless (`EveryRunKeepsCounterLaws`, `NoRunOverspends`);
- one quarantine marker is enough exactly when one call may be in flight (`OpenIsSettledIff`, `TwoLostReopens`);
- a successful migration is recognised again exactly while nothing was begun since, the guard is open and the policy
  in force is its own (`LedgerRuns.ReplayIsRecognisedIff`), which its own limits must allow (`PolicyStillMatchesIff`);
- a granted token is refused for good exactly as long as its id is not issued again (`ReusedTokenIsRefused`,
  `RevivedIff`, `SameTokenTwice`);
- the server grants one control call per run, so one reveal and one verdict per run hold however often Continue is
  clicked (`OneRevealOneVerdict`); that only one control call is sent, and that an observed invocation is never judged
  without its arm time, hold exactly when one Continue request is under way at a time (`OneControlIff`,
  `ArmBoundaryIff`, `TwoClicksTwoControls`, `TwoClicksLoseTheBoundary`);
- the cell says verified exactly through a stored write of the verified seal: an accepted run whose seal the storage
  refuses ends as failed (`StepVerifiesIff`);
- a save of the cookie that throws leaves a used capability on disk while the process goes on (`CredentialOnDiskIff`);
- recording a scored attempt is all-or-nothing exactly for well-formed calls (`RecordKeepsSequenceIff`);
- the first save of the recovery record has a window that later reads as partial (`CrashIsReadableIff`);
- two accepted ancestry walks need not compose (`WalksComposeIff`), and a commit message line that looks like a
  parent header is read as a parent (`ReadsRecordedParentsIff`);
- an incomplete verdict does not mean that nothing was invoked (`LateInvocationIsReportedIncomplete`).

## Model

| member | source | states |
|---|---|---|
| RunLockMarkers.ParseIffWritten | components/invocation-integrity/invocation-integrity-client.tsx:195-234 | The reader accepts a stored text exactly when it is what this build and origin's writers produce for a valid record, and returns that record; wrong keys, build, origin, claim id or times are all refused. |
| RunLockMarkers.RunLockStore.Write | components/invocation-integrity/invocation-integrity-client.tsx:187-193 | A write is confirmed exactly when nothing throws and what is read back is the text written; storage that does not take the text leaves the cell alone, and a cell that took it reads back as the new record even when the writer saw an error. |
| RunLockMarkers.RunLockStore.Arm | components/invocation-integrity/invocation-integrity-client.tsx:236-257 | Arming succeeds exactly over an absent record with a claim id available and a confirmed write, and leaves that claim in progress; every other outcome leaves the cell unchanged, except a write that threw after storing. |
| RunLockMarkers.RunLockStore.Seal | components/invocation-integrity/invocation-integrity-client.tsx:259-293 | Sealing succeeds exactly over the in-progress record of the same claim with a confirmed write, carrying origin, id and start time over; it tells missing, unreadable and mismatching records apart and leaves them unchanged. |
| RunLockTheorems.StepKeepsInv | components/invocation-integrity/invocation-integrity-client.tsx:821-979 | Every step of every tab (mount, unlocked look, click, lock requests, read, write, call, crash, dispose, throw) keeps the lock discipline, the shape of the history and what the owner knows. |
| RunLockTheorems.OneClaimOneSequence | components/invocation-integrity/invocation-integrity-client.tsx:1073-1097 | For any number of tabs and any interleaving: at most one claim is ever armed, only over an absent record, and each native call is sent at most once, in order, by the arming tab, all earlier ones accepted; at most one terminal record follows. |
| RunLockTheorems.LiveRunIsNotInterrupted | components/invocation-integrity/invocation-integrity-client.tsx:1384-1400 | A tab from the stored arm write to the end of its own seal holds the owner lock, and the cell holds exactly its own claim in progress unless it wrote the terminal record itself. |
| RunLockTheorems.RecoverySealsOnlyAbandonedClaims | components/invocation-integrity/invocation-integrity-client.tsx:850-895 | When recovery writes, no tab is in the middle of a run; it writes a failure over the very claim it found. |
| RunLockTheorems.TerminalIsAbsorbing | components/invocation-integrity/invocation-integrity-client.tsx:266-281 | Once terminal (or unreadable), the cell never changes again in any continuation. |
| RunLockTheorems.TerminalKeepsItsOrigin | components/invocation-integrity/invocation-integrity-client.tsx:1263-1273 | A terminal record carries the armed (or retained) claim; if it says verified, the history is one tab's complete run of four accepted calls and the verifier's acceptance, sealed by that tab; recovery only ever says failed. |
| RunLockTheorems.StepVerifiesIff | components/invocation-integrity/invocation-integrity-client.tsx:1263-1273 | A step makes the cell say verified exactly when it is the stored write of the arming tab's own seal after its complete, accepted run; when the storage refuses that write, the same run is not verified. |
| RunLockTheorems.OwnerWritesAlone | components/invocation-integrity/invocation-integrity-client.tsx:1392-1400 | While a tab holds the owner lock no other tab changes the cell, the history, either lock or that tab. |
| RunLockTheorems.RunLockNeverBlocks | components/invocation-integrity/invocation-integrity-client.tsx:238-240 | Whoever waits for the run lock holds the owner lock and can enter at once. |
| RunLockTheorems.OwnStepLowersRank | components/invocation-integrity/invocation-integrity-client.tsx:850-901 | Every step a tab takes brings it closer to its end, so no tab loops through retries or lock sections. |
| RunLockTheorems.AnyTabCanFinishAlone | components/invocation-integrity/invocation-integrity-client.tsx:897-911 | No deadlock: from every reachable state any tab can run to its end by itself in at most 27 steps without a crash or a throw; a recovering one ends the claim. |
| RunLockTheorems.AbandonedClaimIsRecovered | components/invocation-integrity/invocation-integrity-client.tsx:850-895 | In every run in which a recovering owner of the claim in the cell is not closed, not disposed before it looked at the cell, has nothing thrown at it and its writes stored, whatever all other tabs do: the claim is on its way to a failed terminal record, and is one once that tab has ended, at the latest after seven steps of its own. |
| RunLockTheorems.MountingTabRecovers | components/invocation-integrity/invocation-integrity-client.tsx:850-895 | The same from the moment a mounting, undisposed tab wins the owner lock over the claim it saw. |
| RunLockTheorems.RecoveryIsPossible | components/invocation-integrity/invocation-integrity-client.tsx:846-895 | From every reachable state with an in-progress record and a free owner lock, a fresh tab can turn it into a failed terminal record of the same claim. |
| RunLockCourse.CourseIsRecorded | components/invocation-integrity/invocation-integrity-client.tsx:1113-1385 | In every run over an absent cell in which a tab is unhindered and does what its course says, whatever all other tabs do: its next action is always possible, and after the last one the cell holds the course's record: verified with the verifier's receipt when four calls and the transcript were accepted and the seal stored; failed with the failure's artifact when a call was rejected, anything was thrown, or the verified seal found no lock, no record or no storage. |
| RunLockCourse.ArmedRunIsRecorded | components/invocation-integrity/invocation-integrity-client.tsx:1263-1273 | Conversely, in every run from an absent cell in which the tab that armed it is not closed, has nothing thrown at it and its writes stored: its actions are one whole course, and once it has ended the cell says verified with the verifier's receipt if no call was rejected, and failed with the failure's artifact if one was. |
| RunLockCourse.WriteIsBelievedIff | components/invocation-integrity/invocation-integrity-client.tsx:187-193 | Whatever others do meanwhile: only a confirmed write begins a run, ends it or lets recovery read the record again; over one that threw or was not stored a run does not begin and a verified seal becomes a failure. |
| RunLockCourse.RecoveryAsksTwice | components/invocation-integrity/invocation-integrity-client.tsx:897-911 | A mounting tab that finds a claim asks for the owner lock, once more when it was taken, and then no more; with the lock and the claim still there it is on its way to recover it, without the lock it ends and has touched nothing. |
| RunLockCourse.DisposedTabWritesNothing | components/invocation-integrity/invocation-integrity-client.tsx:871-871 | A mounting tab disposed of before it looked under the owner lock never writes anything, in any continuation. |
| FixedSequence.TraceLedger.Append | lib/evidence/checkout-trace-ledger.ts:111-150 | After its await an append files the trace with the parent read before it, to the reset log or the current one, or refuses another session, a sequence gap or a duplicate id and changes nothing; overlapping appends are pending at once. |
| FixedSequence.TraceLedger.Archive | lib/evidence/checkout-trace-ledger.ts:152-174 | Archiving moves the current log away and empties it exactly when trajectory, count and entries match; each mismatch is told apart and changes nothing; history and newest id are untouched. |
| FixedSequence.PlayKeepsSound | lib/evidence/checkout-trace-ledger.ts:69-86 | Whatever is begun, appended, refused, reset or archived, with whatever ids: the reported total always equals the number of traces ever appended, and history only grows at its end. |
| FixedSequence.PlayKeepsLogs | lib/evidence/checkout-trace-ledger.ts:111-150 | In every such play the current log and every archived one is one session, numbered without a gap, without a repeated id and without a reset. |
| FixedSequence.FiledIff | lib/evidence/checkout-trace-ledger.ts:111-150 | A trace is filed exactly if it is a reset, or goes on where the current log ends: same session, next number, an id not yet in it. |
| FixedSequence.ArchivedIff | lib/evidence/checkout-trace-ledger.ts:152-174 | The log is archived and emptied exactly if the summary is of its trajectory, counts it and names its entries in order. |
| FixedSequence.CallLetAloneIsAccepted | components/invocation-integrity/invocation-integrity-client.tsx:706-752 | A call that is let alone, its trace fitting the log, native and named by its receipt, is accepted, and its trace is all that was added. |
| FixedSequence.AcceptedCall | components/invocation-integrity/invocation-integrity-client.tsx:706-752 | If a call is admitted while its sequence number is free (the current log is empty, or ends in another number) and is accepted, then whatever was pending or happened around it, nothing was recorded before its admission or beside it, and history grew by exactly its own trace: native, right tool, next sequence number, linked to the expected parent, named by its receipt; and the number after it is free again. |
| FixedSequence.AcceptsOnlyItsOwnIff | components/invocation-integrity/invocation-integrity-client.tsx:737-751 | Why the boundary is checked: over all sound ledgers, acceptance means exactly the call's own trace unless the newest current trace is its own parent and already passes for the call's; the empty log that the page demands at line 564 never does. |
| FixedSequence.AllAccepted | components/invocation-integrity/invocation-integrity-client.tsx:1118-1211 | If any number of calls is accepted one after the other, starting where the first number is free, the ledger is the old one plus exactly their traces, contiguous and parent-linked; so any foreign trace before, between or during them makes the run fail. |
| FixedSequence.FourAcceptedCalls | components/invocation-integrity/invocation-integrity-client.tsx:555-569 | The measured case: after two traces ending in the reset and with the current log empty, as admission checks, four accepted calls leave exactly four traces numbered 3 to 6, each the parent of the next, starting from the reset. |
| ConsumerHolds.Registry.HoldCall | lib/webmcp/registry-manager.ts:249-264 | A hold is granted exactly for a ready tool of the current generation outside a transition, and then its slot counts once more; a refusal changes nothing. |
| ConsumerHolds.Registry.Release | lib/webmcp/registry-manager.ts:264-270 | The first release takes the hold back; further ones change nothing. |
| ConsumerHolds.Registry.ReleaseDown | components/invocation-integrity/invocation-integrity-client.tsx:454-459 | Releasing a catalog gives back exactly its unreleased holds; doing it again changes nothing. |
| ConsumerHolds.Registry.HoldCatalog | components/invocation-integrity/invocation-integrity-client.tsx:440-460 | Every tool is held once more exactly if all are ready in this generation outside a transition; otherwise all earlier holds are given back and every count is as before. |
| ConsumerHolds.Registry.Call | components/invocation-integrity/invocation-integrity-client.tsx:725-737 | A call succeeds exactly if its hold is granted and nothing throws; its own hold is given back either way. |
| ConsumerHolds.Registry.RunSequence | components/invocation-integrity/invocation-integrity-client.tsx:1098-1276 | The sequence goes through exactly if nothing throws and at each point the tools are ready; and with both release functions the handler may still owe, whichever step throws, and whatever others take and give back meanwhile, what this page adds to every hold count ends as it began. |
| EpochGuard.OnlyTheNewestStores | components/lab/probe-calibration-runner.tsx:302-374 | In whatever order awaited readiness receipts arrive, every stored result comes from the newest epoch, and its effect was not disposed. |
| EpochGuard.NothingSurvivesAReset | components/lab/probe-calibration-runner.tsx:302-404 | Between a reset's epoch bump and any later stored result, the computation that stored it began; the readiness on display was begun after the last reset. |
| EpochGuard.NewestIsHeard | components/lab/probe-calibration-runner.tsx:302-374 | However many others are under way, a computation's first receipt, and its second after a discovery, store exactly what they say, until a newer epoch is taken or it is disposed of. |
| EpochGuard.ResetsForget | components/lab/probe-calibration-runner.tsx:398-404 | A reset or a registry transition takes readiness off the display, and a reset silences every computation begun before it. |
| RegistrationGuard.OnlyTheNewestReports | components/invocation-integrity/invocation-integrity-client.tsx:318-349 | However often and late status callbacks come, only the newest registration forwards one or returns, and none from before the page was disposed does so after it. |
| RegistrationGuard.OneLease | components/invocation-integrity/invocation-integrity-client.tsx:318-349 | The registry holds the lease of the newest registration and of no other, and none after disposal until the next one. |
| RegistrationGuard.NewestIsHeard | components/invocation-integrity/invocation-integrity-client.tsx:318-349 | A registration is heard until the next one or disposal: every status is forwarded, and when the registry settles it returns exactly if the last status was the expected readiness. |
| LedgerAccounting.IssueKeepsBooksIff | lib/probe/ledger.ts:169-245 | Issuing keeps counters equal to records exactly when it does not reuse the id of a call already dispatched: the script does not look at the record it overwrites. |
| LedgerQuarantine.ReusedIdBreaksBooks | lib/probe/ledger.ts:220-242 | A concrete run that reuses the id of a call in flight for another subject, after which the counters no longer match the records. |
| LedgerAccounting.BeginKeepsBooks | lib/probe/ledger.ts:247-422 | Begin, granted, refused, expired or halting, keeps every counter equal to what the records add up to. |
| LedgerAccounting.SettleKnownKeepsBooks | lib/probe/ledger.ts:424-489 | So does settling with a known cost, from flight or from quarantine. |
| LedgerAccounting.SettleUncertainKeepsBooks | lib/probe/ledger.ts:491-578 | So do settling as uncertain and reaping. |
| LedgerAccounting.BooksGiveLaws | scripts/probe-controls.ts:168-181 | Balanced books imply all published laws: purpose counts sum to claimed = sequence, committed = claimed x reservation, pending + known + uncertain = claimed, in flight = pending, and both cost bounds. |
| LedgerAccounting.RunsKeepBooks | scripts/probe-controls.ts:2050-2108 | Every run of issue, begin, settle and reap that never issues the id of a dispatched call again keeps the books and the laws. |
| LedgerAccounting.EveryRunKeepsCounterLaws | lib/probe/ledger.ts:247-578 | Whatever ids callers use, every run keeps the counter laws and the policy terms (in flight = pending where one call at a time is allowed). |
| LedgerAccounting.NoRunOverspends | scripts/probe-controls.ts:565-577 | In every run, actual cost plus uncertain upper bound plus pending reservations never exceeds committed, and committed never exceeds the ceiling. |
| LedgerAccounting.NothingIsOverspent | lib/probe/ledger.ts:247-578 | From initialisation on, with nothing assumed of the callers: after any calls the counter laws hold and spending stays below the ceiling the guard was set up with. |
| LedgerAccounting.BeginAdmitsIff | lib/probe/ledger.ts:247-422 | With balanced books begin grants exactly on open guard, matching identity and terms, an issued unexpired token with these claims and purpose, admission, no call in flight beyond the limit or stale, and counts of records below both limits; it never halts for its own counters. |
| LedgerRuns.SettlingTwice | lib/probe/ledger.ts:436-442 | At any later time, in every run of calls and migrations with fresh ids: the same settlement is recognised and changes nothing; a different one halts the guard. |
| LedgerRuns.IssuingTwice | lib/probe/ledger.ts:204-218 | At any later time, until the authorisation is begun, found expired or its id issued again: the same authorisation is returned unchanged before it expires, refused after, and nothing changes. |
| LedgerRuns.SubjectIsTaken | lib/probe/ledger.ts:204-218 | In every run after a subject was authorised, no request for that subject is ever issued anew. |
| LedgerReplies.IssuesAreRateLimited | lib/probe/ledger.ts:220-242 | In every run, authorisations per purpose, actor and hour never exceed the largest limit that any caller stated for that purpose. |
| LedgerReplies.EachResponseSettlesOneCall | lib/probe/ledger.ts:448-476 | In every run, whatever ids are used, no provider response settles two calls. |
| LedgerGuard.Guard.Issue | lib/probe/ledger.ts:169-245 | The script's checks and writes, in its order on the stored hashes, are exactly the specified step and reply. |
| LedgerGuard.Guard.Begin | lib/probe/ledger.ts:247-422 | The same for begin, with its halting and expiring refusals. |
| LedgerGuard.Guard.SettleKnown | lib/probe/ledger.ts:424-489 | The same for a known settlement: the script's checks in order, then the lease or uncertain amounts and the marker, then cost, response and record. |
| LedgerGuard.Guard.SettleUncertain | lib/probe/ledger.ts:491-529 | The same for an uncertain settlement, which looks at the reservation before the lease. |
| LedgerGuard.Guard.Reap | lib/probe/ledger.ts:531-578 | The same for a reap, which looks at the lease and its time before the reservation. |
| LedgerOutcomes.SettlingHaltsIff | lib/probe/ledger.ts:436-461 | On the stored fields: settling halts the guard exactly for a different settlement of a settled call, a response already filed, a cost above the reservation or a missing lease, with that reason, and nothing else changes. |
| LedgerOutcomes.SettlementFiles | lib/probe/ledger.ts:457-483 | A new settlement files the cost, response, digest and usage it was given under the call, releases its lease or its uncertain amount, and opens a guard that was quarantined for this call alone. |
| LedgerOutcomes.BeginHaltsIff | lib/probe/ledger.ts:247-422 | Begin halts an open guard exactly when its caller was built for other terms or something is held against the guard, or when it is the token's turn and a counter is negative, does not add up or is over a limit. |
| LedgerOutcomes.GrantFiles | lib/probe/ledger.ts:396-422 | A grant files the reservation, the next sequence number and the lease, counts one call of its purpose, and changes nothing else; it presupposes agreement, the token's turn, sound counters and room. |
| LedgerOutcomes.RefusalOnlyExpires | lib/probe/ledger.ts:247-395 | A begin that is not granted halts the guard, expires a token that has run out, or changes nothing. |
| LedgerOutcomes.GivingUpFiles | lib/probe/ledger.ts:512-578 | Giving up, by settlement or by reap after the lease has run out, files this digest, moves the reservation from pending to uncertain, and quarantines the guard under this call. |
| LedgerOutcomes.GivingUpHaltsIff | lib/probe/ledger.ts:500-556 | Giving up halts the guard exactly for a call in flight whose lease is gone; and unless it is new or halts, nothing changes. |
| LedgerOutcomes.GivingUpTwice | lib/probe/ledger.ts:500-510 | In every later run with fresh ids, giving up the same call again changes nothing: the same digest is recognised, another is a conflict, until its cost is known. |
| LedgerOutcomes.HaltedForGood | lib/probe/ledger.ts:247-260 | A halted guard stays halted in every run of calls and migrations: no begin is granted, no subject authorised, no policy, limit or receipt written. |
| LedgerOutcomes.IssueFiles | lib/probe/ledger.ts:169-245 | An authorisation is filed exactly when every check passes, under its id, for its subject and as one more of its actor's hour; otherwise nothing changes. |
| LedgerOutcomes.ReturnedIff | lib/probe/ledger.ts:204-218 | It is returned again exactly to its own subject, id and claims, while unused and in time. |
| LedgerQuarantine.RunsKeepSound | lib/probe/ledger.ts:462-476 | Where one call at a time is allowed: at most one call is unsettled, the marker names it exactly when it is uncertain, and an open guard has nothing uncertain behind it, in every run. |
| LedgerQuarantine.TwoLostReopens | lib/probe/ledger.ts:521-522 | A concrete run with two calls in flight: both are given up, the single marker keeps only the second, and settling that one reopens the guard over the first. |
| LedgerQuarantine.OpenIsSettledIff | lib/probe/ledger.ts:462-476 | An open guard has nothing uncertain behind it in every run exactly when the policy allows at most one call in flight. |
| LedgerQuarantine.StatusConsistentIff | lib/probe/status.ts:34-75 | For a guard only its scripts have touched, the whole consistency check comes down to: it is open and nothing is in flight. |
| LedgerQuarantine.ReapReceiptMatches | scripts/probe-controls.ts:565-577 | After a reap that was carried out or recognised: quarantined, nothing pending or in flight, at least one uncertain. |
| LedgerMigration.MigrationIsAllOrNothing | lib/probe/ledger.ts:987-1051 | Any of the migration scripts: a denied, replayed, conflicting or mismatching migration changes nothing; a successful one leaves totals, counts, leases, tokens, responses, older receipts and every limit it does not write as they were. |
| LedgerOutcomes.ListedCallsAreOnRecord | lib/probe/ledger.ts:899-946 | If a migration is carried out or recognised, every call it lists is on record exactly as listed: reservation, turn, cost, response, digest, usage, and the policy and script of its time; one that differs in any field, at any place, changes nothing. |
| LedgerOutcomes.TamperedCallIsRefused | scripts/probe-controls.ts:1493-1522 | Changing the record of any one listed call in any field gets a migration refused for it that would otherwise go through, and nothing is written. |
| LedgerOutcomes.OnlyOneListing | lib/probe/ledger.ts:899-946 | With balanced books a ledger has one listing: any two migrations it accepts, that expect as many settled calls as they list, list the same calls. |
| LedgerOutcomes.PredecessorIsFiled | lib/probe/ledger.ts:861-897 | The receipt a migration names as its predecessor is the one filed, compared whole or by its identity. |
| LedgerOutcomes.SpareIsInPlace | lib/probe/policy-v05-migration.server.ts:207-421 | The last migration goes through only over the acknowledgement it looks for, over exactly the listed calls and the spare authorisation, and over a spare that ran out unused under the policy being replaced. |
| LedgerOutcomes.MigrationRequires | lib/probe/ledger.ts:999-1007 | What is in force when one is carried out: an open, idle guard with the previous policy, its limits, the expected totals, no receipt under this name, and time left. |
| LedgerOutcomes.MigrationInstalls | lib/probe/ledger.ts:1010-1051 | It installs the next version, policy and script, exactly the written limits, and its own receipt. |
| LedgerRuns.ReplayIsRecognisedIff | lib/probe/ledger.ts:987-998 | A successful migration run again after any calls and migrations with fresh ids never changes anything, and is reported as existing exactly when no begin was granted since, the guard is open and its policy and limits are those in force (for 0.5 also its acknowledgement, inventory and spare authorisation). |
| LedgerRuns.PolicyStillMatchesIff | lib/probe/ledger.ts:1010-1017 | With calls only in between, the migration's policy and limits are those in force exactly when its next policy keeps every limit its script does not write. |
| LedgerRuns.ConflictIsRefused | lib/probe/ledger.ts:987-988 | After a migration, in every run, a different one under the same receipt is refused and changes nothing. |
| LedgerMigration.LimitsAfterMigration | lib/probe/ledger.ts:1010-1017 | For any set of written limits: the overall allowance is kept exactly when the written limits gain nothing in sum; counts stay within limits exactly when the calibration limit covers the calls made and no other written limit is negative. |
| LedgerMigration.ManifestIsComplete | lib/probe/ledger.ts:899-946 | With balanced books, a migration that goes through with as many settled calls as it lists has listed every call ever dispatched, and their costs are all that was spent. |
| LedgerMigration.MixedRunsStayBounded | scripts/probe-controls.ts:1540-1731 | Any chain of migrations, of any number of listed calls, policies per call and written limits, interleaved with calls keeps the counter laws and the spending bound. |
| LedgerMigration.MixedRunsStaySound | scripts/probe-controls.ts:1350-1525 | With fresh ids and one call at a time any such chain also keeps counters equal to records and an open guard settled. |
| LedgerChain.ChainGoesThrough | lib/probe/policy-v04-migration.server.ts:149-204 | Every chain of calls and migrations in which ids are new, calls are in time and within limits and each migration lists all calls so far with the policy of their own time goes through in full, and the ledger ends as that history tells. |
| LedgerChain.ChainIsARun | scripts/probe-controls.ts:1350-1731 | Such a chain is one of the runs of calls and migrations the other theorems speak of, and it never reuses an id. |
| LedgerChain.FourMigrationsGoThrough | lib/probe/policy-v05-migration.server.ts:207-421 | The real chain: four calls and 0.2, one call and 0.3, four calls and 0.4, four calls, one authorisation left unused, and 0.5, with the repository's limits; for all ids, costs and times every begin is granted, every migration carried out, and all thirteen calls are on record under their own policies. |
| LedgerSchedule.PlanAdmittedIff | scripts/probe-controls.ts:2050-2096 | Run one at a time with known settlement, a plan is admitted entirely exactly when neither a purpose nor the whole exceeds its limit; order does not matter, and neither do repeated token ids. |
| LedgerSchedule.EveryOrderIsAdmitted | scripts/probe-controls.ts:1206-1210 | Every permutation of the schedule is admitted in full and ends with every purpose at its limit, committed at the ceiling, nothing pending or uncertain. |
| LedgerSchedule.NothingAfterTheSchedule | scripts/probe-controls.ts:2110-2140 | After the last call of any permutation, whatever calls and migrations follow, no begin is ever granted again. |
| LedgerRuns.ClaimedNeverFalls | lib/probe/ledger.ts:396-422 | In every run the count of calls never falls, and stands still exactly while no begin is granted. |
| LedgerRuns.NothingBeyondTheLimit | scripts/probe-controls.ts:2110-2140 | Once the global limit is reached, no begin is granted in any run from there; an otherwise acceptable one is told so and changes nothing. |
| LedgerRuns.ReusedTokenIsRefused | scripts/probe-controls.ts:2068-2076 | In every run after a grant in which the token's id is not issued again (with fresh ids it never is), the token is refused, and the refusal changes nothing. |
| LedgerRuns.RevivedIff | lib/probe/ledger.ts:169-245 | Exactly what breaks it: of all steps only a request to issue the used id again that passes every check of the issue script (open guard, identity, time, admission, a subject not yet claimed, rate) makes the token acceptable, for the claims and purpose then issued. |
| LedgerSchedule.SameTokenTwice | lib/probe/ledger.ts:220-242 | A fresh guard grants a call, it is settled, the same id is issued for another subject, and the very same begin is granted again. |
| LedgerRuns.SecondBeginIsRefused | scripts/probe-controls.ts:1913-1934 | Where one call may be in flight: in every run from a grant in which that call is neither settled nor given up, no begin is granted, an otherwise acceptable one is refused for concurrency (or for the stale lease) and changes nothing; the step that takes the call back leaves nothing in flight. |
| ObservationRunner.OneRevealOneVerdict | lib/demo/handoff-ledger-v2.server.ts:225-252 | Under every interleaving of gate, registry, timer, awaits and late or lost answers, with any number of advance requests under way: every finalizer does the beginning of one life (control, its return, reveal, its return, a fitting verdict, report), and of those of one run at most one gets beyond sending its control call. |
| ObservationRunner.OneControl | components/demo/byoa-runner-live-v2.tsx:375-436 | With at most one advance request under way each finalizer belongs to a later run than the one before it, so one control call is sent per run. |
| ObservationRunner.OneControlIff | components/demo/byoa-runner-live-v2.tsx:821-867 | That one control call is sent per run holds in every run exactly when at most one advance request is under way at a time; the page itself does not bound them. |
| ObservationRunner.ArmBoundaryIff | components/demo/byoa-runner-live-v2.tsx:389-392 | So does that the missing-boundary error never occurs: an observed invocation is judged only while the arm time is set. |
| ObservationRunner.TwoClicksTwoControls | components/demo/byoa-runner-live-v2.tsx:845-850 | A concrete run: Continue clicked twice, the second answer clears the flags while the next run's settle call is under way, and the pending timer sends a second control call for that run; the server will grant only one. |
| ObservationRunner.TwoClicksLoseTheBoundary | components/demo/byoa-runner-live-v2.tsx:389-392 | The same run without the timer: the settle call is granted, the contract revealed, and the invocation is about to be judged without its arm time. |
| ObservationRunner.LifeOrder | components/demo/byoa-runner-live-v2.tsx:307-373 | Deed by deed: a reveal stands right after the return of the finalizer's own control call, and a persisted verdict right after the reveal returned, with a verdict that fits the control call. |
| ObservationRunner.EvaluationIsKept | components/demo/byoa-runner-live-v2.tsx:394-403 | Once a finalizer's evaluation has returned, every verdict it persists or reports, in any continuation, is that evaluation; after a timeout it is incomplete, without a provider unavailable. |
| ObservationRunner.EvaluationIsPersisted | components/demo/byoa-runner-live-v2.tsx:307-373 | When its awaits arrive, a settled invocation evaluated within the arm boundary is persisted with exactly its evaluation, under the stage of that name after the session it began with, then reported and put on display, whatever happens in between. |
| ObservationRunner.PersistedStage | components/demo/byoa-runner-live-v2.tsx:335-341 | The step that persists a verdict stores, for the finalizer's own run, the session it began with and the stage that stands for that verdict. |
| ObservationRunner.CauseStartsItsKind | components/demo/byoa-runner-live-v2.tsx:717-772 | The timer starts a timeout, a registry error or an unsupported browser an unavailable, unless the run is being finalized; nothing else but the gate starts a finalizer. |
| ObservationRunner.GateStartsSettlement | components/demo/byoa-runner-live-v2.tsx:717-726 | An invocation admitted while armed is observed; settling while observed starts the settlement, and nothing else does. |
| ObservationRunner.PageLetsGo | components/demo/byoa-runner-live-v2.tsx:245-316 | Continue, a persisted result and a failed await leave no timer or listener that the page knows; a finalizer that comes to persist in a terminal step does nothing. |
| ObservationRunner.GateKeepsItsClaim | components/demo/byoa-runner-live-v2.tsx:700-708 | The gate keeps its first claim until the next build, and a retained step is built only over an inactive gate with no claim in flight. |
| ObservationRunner.StartedOnce | components/demo/byoa-runner-live-v2.tsx:675-688 | A step is prepared only on the answer of a start that the server carried out, for a run not started before. |
| ObservationRunner.FailedRevealHasNoVerdict | components/demo/byoa-runner-live-v2.tsx:284-305 | After a failed or lost reveal no finalizer ever persists a verdict for that run, in any continuation and with any number of advance requests. |
| ObservationRunner.FailedFinalizerStaysSilent | components/demo/byoa-runner-live-v2.tsx:717-772 | A finalizer that failed, at whatever await, does nothing more in any continuation; if the server had granted its control call, no other of its run ever gets beyond sending one. |
| ObservationRunner.SessionStaysValid | lib/demo/agent-session-v2.ts:71-93 | With any number of advance requests, the stored session is always an unbroken chain of allowed stages with strictly advancing times, whatever the clock does, at most eight stages long. |
| ObservationRunner.LateInvocationIsReportedIncomplete | components/demo/byoa-runner-live-v2.tsx:740-748 | A concrete run in which an invocation is admitted and settled while the timeout's control call is under way: it is still reported incomplete, and the stored session forgets it was observed. |
| Journey.ContinuousStopsAtFirstFailure | components/demo/byoa-runner-live-v2.tsx:821-867 | Whatever is reported, repeated or lost, a continuous journey's verdicts are passes followed by at most one other. |
| Journey.AdvanceIff | app/api/demo/journey/advance/route.ts:113-123 | A step with a kept result lets the journey go on exactly when it passed or the run is a regression run. |
| Journey.JourneyGoesThrough | app/api/demo/journey/advance/route.ts:60-123 | A regression journey, whatever its verdicts, and a continuous one whose steps pass, goes through all its steps whichever copies are lost on the way, and keeps every outcome in order. |
| Journey.RepeatsAreRecognised | lib/demo/continuous-journey.server.ts:60-78 | A report, a kept result and an advance that got through once are recognised when repeated, and a different outcome is denied; nothing changes. |
| Journey.RegressionRunsEverything | app/api/demo/journey/status/route.ts:72-75 | A regression run is complete exactly when every case has run, in order. |
| Journey.StoppedScoreAddsUp | components/demo/byoa-runner-live-v2.tsx:1006-1018 | For a stopped journey, passed + (issues or 1) + not run equals the total. |
| FallbackLoop.Calibrate | scripts/fallback-calibration.ts:124-184 | The loop in the script's own variables ends exactly where the document-by-document specification does; with room for two documents per case it is never exhausted; and a run that ends took one document for each case, one for each that came to nothing and one for each lost response. |
| FallbackLoop.ToldByWeather | scripts/fallback-calibration.ts:124-184 | From the weather alone: the loop goes on exactly until a document finishes the run or a second one in a row fails; the first of these decides how it ends, and the run has advanced by one case for each document that worked with nothing to catch up on. |
| FallbackLoop.DocumentsOfAFinishedRun | scripts/fallback-calibration.ts:152-171 | A finished run used exactly one document per case, one per document that came to nothing, and one per lost response. |
| FallbackLoop.NoFailureNoDelay | scripts/fallback-calibration.ts:162-171 | Without a failure a run takes exactly one document per case and is then terminal. |
| FallbackLoop.DocumentStaysOnCourse | scripts/fallback-calibration.ts:124-184 | Between documents the client knows the ordinal, or is exactly one lost response behind with one failure counted, within two documents per case. |
| FallbackLoop.StopsInTime | scripts/fallback-calibration.ts:31 | Whatever is lost, the loop has stopped within two documents per case, so four cases never use up twelve documents. |
| FallbackLoop.GivesUpOnTwoInARow | scripts/fallback-calibration.ts:175-177 | Giving up means the last two documents both failed, right after a document without a pending failure. |
| FallbackLoop.BoundIsReached | scripts/fallback-calibration.ts:148-156 | The bound is tight: losing every sealed response takes exactly two documents per case and still reaches the end. |
| ScoredRecovery.Files.Save | lib/scored/local-recovery.ts:74-106 | Saving passes through exactly the specified disk states and fails only on a key file cut short. |
| ScoredRecovery.Files.Delete | lib/scored/local-recovery.ts:163-174 | Deleting removes artifact, key and left-over in that order, stops at an unlink that fails, and reports an artifact that has come back by the time of its last look. |
| ScoredRecovery.CrashIsReadableIff | lib/scored/local-recovery.ts:108-115 | A save cut short can be read exactly when a record was there before, or it was cut before the key or after the rename; otherwise it reads as partial. |
| ScoredRecovery.RecordSurvivesEveryCrash | scripts/scored-run.ts:135-187 | At every crash point from the first save until deletion begins, also after a save that threw and was survived, the files hold one whole record with the run's own ids and exactly one of capability and cookie. |
| ScoredRecovery.CredentialOnDiskIff | scripts/scored-run.ts:171-187 | After a session is started the disk holds the cookie exactly when the save finished; otherwise it still holds the capability that the server has used, even while the process goes on with the cookie. |
| ScoredRecovery.IdsNeverChange | scripts/scored-run.ts:154-187 | In every run, across any crashes and restarts, launch and document id never change once saved, and until deletion begins they are the ones on disk. |
| ScoredRecovery.DeletedOnlyWhenAcknowledged | scripts/scored-run.ts:342-408 | Deletion begins only when the evidence with this digest was verified and written and the server sealed and acknowledged that very digest. |
| ScoredRecovery.LostAcknowledgementIsRepeated | scripts/scored-run.ts:385-407 | When the reply to a granted acknowledgement is lost, then whatever the server is asked meanwhile, the second call is granted for the same digest and the run goes on to delete. |
| ScoredRecovery.CrashIsTakenUp | scripts/scored-run.ts:135-187 | After any crash before deletion the next process takes up the run's own ids with the one credential on disk. |
| ScoredRecovery.ResumedRunFinishes | scripts/scored-run.ts:342-408 | With the cookie on disk and the run sealed by the server, that process goes on to the end: evidence written, acknowledged, every file gone. |
| ScoredRecovery.UninterruptedRunFinishes | scripts/scored-run.ts:135-408 | So does a run that nothing interrupts, from its first save on. |
| ScoredStore.RecordKeepsSequenceIff | lib/scored/run-store.server.ts:337-404 | Recording keeps counts, ordinals and recorded attempts consistent exactly when the call is not admitted to an active run at its ordinal, attempt and runner, or is a call the route builds: the two late refusals leave a half-recorded attempt. |
| ScoredStore.RunGoesThrough | lib/scored/run-store.server.ts:337-404 | Whatever cases fail once, a run whose other attempts are scored gets through all cases, each for the runner it was told, with one attempt more per failure, and is then complete. |
| ScoredStore.SecondFailureEnds | lib/scored/run-store.server.ts:376-386 | A failure that may not be replaced, or that repeats one, ends the run as invalid. |
| ScoredStore.EndedRunIsSealed | lib/scored/run-store.server.ts:439-556 | An ended run is sealed once with all its attempts, the same evidence again is accepted and no other, and it can be acknowledged. |
| ScoredStore.LostReplyIsNotRecordedTwice | lib/scored/run-store.server.ts:352-365 | A recorded attempt whose reply was lost is refused when sent again and changes nothing. |
| ScoredStore.EveryRunIsBounded | scripts/scored-run-store-integration.ts:100-195 | From a new run on: at most two attempts per case, and as many cases completed as passed. |
| ScoredStore.AcknowledgeIff | lib/scored/run-store.server.ts:515-556 | An acknowledgement succeeds exactly for the sealed digest; and after it, whatever is called, the same one succeeds again and no other ever does. |
| Ancestry.AssertFirstParentAncestor | scripts/verify-direct-observation-presentation.ts:48-62 | The walk succeeds exactly when the ancestor is at most 512 single-parent steps away, with the smallest such distance; it fails as too deep exactly when 513 steps are possible without meeting it, and otherwise with the first obstacle. |
| Ancestry.WalksComposeIff | scripts/verify-direct-observation-presentation.ts:285-287 | In a real (acyclic) history two successful walks compose exactly when their distances add up to at most 512. |
| Ancestry.WalksCompose | scripts/verify-gate6-presentation.ts:51-66 | In any object store, walks whose distances add up to at most 512 compose. |
| ProofPack.DecodeEncode | scripts/verify-gate6-presentation.ts:27-30 | Encoding any bytes gives a text over the URL alphabet that decodes to them. |
| ProofPack.AcceptedIffCanonical | scripts/verify-gate6-presentation.ts:20-30 | Re-encoding accepts a text exactly when it is the unpadded encoding of some bytes, which is exactly when it has no dangling character and zero trailing bits. |
| ProofPack.PackAcceptedIff | scripts/verify-gate6-presentation.ts:17-48 | The canonical text of some bytes is accepted exactly when they are, or expand to, a pack of at least a header and at most the limit with the expected hash; reading as ASCII drops high bits, and the model keeps that. |
| ProofPack.RawPackIsNeverTooLarge | scripts/verify-gate6-presentation.ts:31-48 | The transport limit keeps a raw transfer at 45,000 bytes, so it can be refused only for being shorter than its header or for its hash. |
| ProofPack.OneTextPerRawPack | scripts/verify-gate6-presentation.ts:20-48 | Two different texts never stand for the same raw bytes. |

## Left out

- Clearing site storage or using another browser profile between runs: the page states that its one-run guard does not cover it.
- Rendering, prompts, downloads, clipboard and navigation: user interface only.
- Network, Redis, git, browser and process launching: each appears only as an outcome (arrives, fails, arrives but the response is lost).
- SHA-256, encryption, JSON text, date arithmetic, Brotli and response schemas: opaque identifiers, injective constructors, validity predicates and function parameters.
- Time-to-live checks and absent-field checks of the Redis hashes (`MISSING_GUARD`, `MISSING_COUNTER`, `PARTIAL_STATE`) and repeated initialisation: the model starts from an initialised guard.
- The separate run-admission record consulted by issue and begin: one parameter that is valid, invalid or of an unknown mode.
- The compatibility preflight, failure receipts and verifier routes of the invocation-integrity page: their success or failure is one step of the protocol.
- LedgerAccounting.RunsKeepBooks: assumes that no dispatched id is issued again; ids are derived per run and ordinal, so this means one subject per run and ordinal, and that the service keeps to it is not modelled. Without it only the counter laws are claimed.
- A liveness bound for the scored loop: sixty documents can run out with two attempts per case plus unrecorded failures, so only safety is stated.
- A second scored run after the recovery files were deleted: the model ends there.
- ScoredStore.EveryRunIsBounded: owner leases and expiry of the run data are one admission flag.
- `verifyDirectObservationCriticalBlob`, the evidence constants and the gate 7 matrix: finite constant comparisons.
- The owner demo and the first-version runner: weaker copies of the modelled code.
- Migrations: time-to-live and schema checks, the times and prior-evidence fields of receipts and the subject and actor fields inside the spare token record are not modelled; the run-index acknowledgement that 0.5 looks for is one flag.
- FixedSequence.FourAcceptedCalls: says nothing about traces recorded after the fourth call's own check, because the page does not look again.
- LedgerRuns.ReplayIsRecognisedIff: assumes fresh ids; issuing the id of a listed call again makes the replay mismatch.
- ObservationRunner.OneControlIff: a second activation of the start control before its server call returns is not modelled.
- ObservationRunner.OneRevealOneVerdict: of the server's handoff record only "started" and "ended" are modelled; its expiry, binding checks and the earliest time of a timeout appear as a control call or reveal that fails.
