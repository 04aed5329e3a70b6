# Endpoint agent: verified model

The endpoint agent is a Go service that enrolls a machine, keeps a credential, runs commands for a backend, updates
itself and reports metadata about the machine. This project models the parts of it that keep state across failures, or
that parse and compare untrusted text, and proves what they promise.

- **Self-update activation** (`ActivationPlan`, `ActivationMachine`, `ActivationSafety`, `ActivationEvidence`,
  `ActivationNames`, `ActivationLog`, `ActivationRun`). The disk maps cleaned paths to bytes. The machine takes one step per file or service
  call; any call may fail, any run may die between two steps, and any number of runs for one staging id interleave. The
  invariants are proved for every behaviour. `Host` is the code itself, call by call and in the code's order. Its disk is
  the sequence of states it has been in; a ghost log matches each call with a machine step, and the log's states are
  exactly the disk's, so the results hold of every state the code brings about and not only of its return.
- **Pending-plan recovery** (`SemVer`, `PendingPlans`, `PendingSweep`, `PendingExample`). The search for the newest plan to
  retry, version precedence, the throttle and the helper copy. The search sees the files it can read: a file that cannot
  be looked at counts as absent, as it does in the source.
- **Backup dry run** (`BackupClassify`, `BackupWalk`, `BackupCensus`, `BackupManifest`, `BackupWiring`). A walk over an
  untrusted canonicalizer, refined to a description of the eligible files that does not walk; a census of everything the
  walk meets, which the manifest's counts equal and for which conservation is proved.
- **Path containment** (`Text`, `Paths`, `Containment`). The two containment checks of the agent and how they relate.
- **Upgrade-table parser** (`UpgradeTable`, `UpgradeRoundTrip`). The column parser with its token fallback, and a printer
  it inverts.
- **Runners** (`AutoEnroll`, `AutoEnrollExample`, `CredentialRunner`). Two whole-run state machines with a trace of everything
  sent. Each has a constant that says whether local calls may fail; where they do not, the runs are shown to get somewhere.
- **Shared authorizer** (`AuthorizerCache`). Two caches, their lock sections freely interleaved.
- **Hotfix posture** (`StableSorting`, `Hotfix`). Ordered and capped lists, the primary category and the roll-up.

Hashes, plan decoding, outcome encoding, time parsing, the canonicalizer and the disk listing are function-typed
parameters: every result holds for any such function. Failures of calls, the replies to the credential runner and clocks
are arbitrary values (`*`); the auto-enroll runner's backend, clock and certificate provider are arbitrary functions of how
often they were asked, so that concrete runs can be given.

## What the proofs found

- A run that ends FAILED with `EvidenceLost` has the new binary installed: the evidence write comes last and
  its failure rewrites the status (activation_execute.go:81-89). `OutcomeMeansDisk` says so.
- Retry of a blocked helper: the comment at activation_pending.go:14-18 wants attempts "forever", yet preparation refuses
  a helper file that exists (activation_plan.go:75-97) and no code removes it. An unthrottled attempt, when nothing fails,
  starts the helper exactly when the inputs are good, the helper file is absent and the executable hashes within the limit
  (`PendingSweep.Sweeper.Drive`); so while the file stays, one plan has at most one helper started, over any run
  (`PendingSweep.Sweeper.Run`). `PendingExample.BlockedHelper` is such a run on a concrete deployment: the helper is started
  and never runs, the plan stays eligible, and the next attempt is refused.
- The comment at remotebridge.go:435-438 promises one authorizer for every caller with the same device id. That holds
  exactly when the provider never returns to an id it left (`SharedIffNeverReturns`); ids A, B, A break it
  (`ReturningSplitsTheGuard`).
- An allowed root that comes down to "/" contains only itself (`SlashAllowsOnlyItself`), because the check appends a second
  slash (whitelist.go:43-52). On absolute canonical paths this is the only place where the agent's two containment checks
  differ (`ChecksAgree`).
- `waitForCert` keeps neither the certificate it loads nor its handle (autoenroll/runner.go:452-476): that handle stays
  open for the rest of the run exactly when the wait succeeded with a certificate that has one, and besides it only the
  held certificate's is open (`AutoEnroll.Runner.RunLoop`; `AutoEnrollExample.WaitedHandleStaysOpen` is such a run).
- The outcome file always tells what is installed (`FileTellsTheTruth`), and more truly than the returned status: a run that
  renames its ACTIVATED outcome into place and then fails to harden it returns FAILED. A later call for the same id, which
  can only fail because the backup exists, overwrites it, always where nothing fails and no temporary is left over
  (`ActivationRun.Host.ActivatePreparedUpdate`).
- A run that dies or returns after Stop keeps every other run for its staging id from changing what is installed
  (`SettledStopperFreezes`), also when nothing is installed: the backup file it made exists for good.
- A refresh reply with neither token nor expiry passes validation and is stored; that, and nothing else, ends an iteration
  with the error for a tokenless lifecycle (`AutoEnroll.Runner.Iterate`). `AutoEnrollExample.EmptyRefreshIsStored` is such
  an iteration.
- The positional branch that ends the parser's token fallback is dead: the pair of versions it asks for would have been
  found earlier (`UpgradeTable.ScanTokens`).

## Model

| member | source | states |
|---|---|---|
| ActivationPlan.NamesArePlain | internal/selfupdate/activation_plan.go:56-73 | every artifact name of a valid staging id is one plain path element |
| ActivationPlan.NamesAreDistinct | internal/selfupdate/activation_plan.go:56-73 | no two artifacts of one staging id, the helper included, are the same file |
| ActivationPlan.LoadedPlanMatches | internal/selfupdate/activation_plan.go:160-180 | a loaded plan carries the requested id and root, so the name rollback derives from it is the file backup wrote |
| ActivationNames.SwapNamesDistinct | internal/selfupdate/activation_execute.go:57-61 | the installed path and its two swap temporaries are three files |
| ActivationNames.WiredUpdateApart | internal/selfupdate/activation_plan.go:208-235 | for a validated plan installed outside the staging names, all files a run touches differ and rollback reads the backup |
| ActivationNames.WiredLayout | internal/selfupdate/activation_plan.go:56-73 | the code's own names give the machine the file layout its proofs ask for |
| ActivationNames.ActivationIsSafe | internal/selfupdate/activation_execute.go:39-91 | with the code's names, in every interleaving with failures and crashes: installed bytes are old, verified new or absent; one Stop at most; the stopper's backup holds the old bytes |
| ActivationNames.WiredOutcomeIsTrue | internal/selfupdate/activation_execute.go:57-163 | with the code's names: what a run returned is true of the disk from then on |
| ActivationNames.WiredStopperFreezes | internal/selfupdate/activation_execute.go:50-91 | with the code's names: a run that stopped and ended fixes what is installed |
| ActivationNames.WiredFileIsTrue | internal/selfupdate/activation_execute.go:76-124 | with the code's names: what the outcome file says is true of the disk |
| ActivationSafety.MoveKeepsInv | internal/selfupdate/activation_execute.go:39-228 | every call of every run keeps the invariant |
| ActivationSafety.InvAlways | internal/selfupdate/activation_execute.go:39-228 | the invariant holds in every state of every behaviour |
| ActivationSafety.InstalledAlwaysSound | internal/selfupdate/activation_execute.go:57-83 | at every step the installed path holds the earlier bytes, the staged bytes that match the plan hash, or nothing |
| ActivationSafety.StopAtMostOnce | internal/selfupdate/activation_execute.go:50-56 | over all interleaved runs at most one calls Stop, once, and from then on the backup holds the earlier bytes |
| ActivationSafety.OutcomeMeansDisk | internal/selfupdate/activation_execute.go:57-163 | ACTIVATED: verified bytes installed and started; ROLLED_BACK: earlier bytes installed and started; FAILED for the high-water mark or the evidence: the new bytes, started; for Stop or the rollback's Start: the earlier bytes; nothing installed: FAILED in a restore or its promote |
| ActivationSafety.SettledStopperFreezes | internal/selfupdate/activation_execute.go:50-91 | once the run that called Stop has died or returned, no run for the staging id ever changes what is installed |
| ActivationSafety.RecordingIsLocal | internal/selfupdate/activation_execute.go:81-105 | writing the outcome touches only the outcome file and its temporary, and changes a status only from ACTIVATED to FAILED |
| ActivationEvidence.KeptAlways | internal/selfupdate/activation_plan.go:237-282 | the outcome's temporary has at most one owner at a time and holds that run's whole outcome before it is renamed |
| ActivationEvidence.FileTellsTheTruth | internal/selfupdate/activation_execute.go:76-124 | in every state of every interleaving the outcome file is as before or a whole outcome, and that outcome is true of the installed bytes now |
| ActivationLog.LogIsBehaviour | internal/selfupdate/activation_execute.go:39-91 | the call log of one execution is a behaviour of the machine |
| ActivationRun.Host.ReadChecked | internal/selfupdate/activation_execute.go:175-191 | hash, compare and read: the hash that was compared, or the reason it stopped, as the machine has it |
| ActivationRun.Host.WriteNew | internal/selfupdate/activation_execute.go:192-215 | the target is created exclusively, written and settled, or given up again by its creator |
| ActivationRun.Host.CopyBinaryWithExpectedHash | internal/selfupdate/activation_execute.go:175-215 | matches the machine's copy; without faults the target gets exactly the source's bytes |
| ActivationRun.Host.ReplaceFile | internal/selfupdate/activation_execute.go:218-228 | remove, rename, harden, or undo: an error may come after the rename has taken effect |
| ActivationRun.Host.WriteOutcome | internal/selfupdate/activation_execute.go:73-124 | evidence is written through a temporary; on failure ACTIVATED becomes FAILED and other outcomes note the error |
| ActivationRun.Host.FillOutcome | internal/selfupdate/activation_plan.go:237-282 | write, settle and rename the temporary, each step a machine step |
| ActivationRun.Host.RollbackAfterActivationFailure | internal/selfupdate/activation_execute.go:144-163 | restore from the backup under its hash, swap, start; each way out recorded as the machine has it; when nothing fails, the backup hashes and the swap file's place is free, ROLLED_BACK |
| ActivationRun.Host.VerifyReady | internal/selfupdate/activation_plan.go:182-206 | ready when the plan loads, the current binary exists and the staged bytes match the plan hash; else the reason |
| ActivationRun.Host.InstallNew | internal/selfupdate/activation_execute.go:57-63 | the verified copy and the swap, or the cause of the rollback that follows |
| ActivationRun.Host.Finish | internal/selfupdate/activation_execute.go:64-91 | start, high-water mark and outcome, in that order |
| ActivationRun.Host.Activate | internal/selfupdate/activation_execute.go:39-91 | every execution is a machine run through exactly the states of the disk; without faults a ready plan is ACTIVATED, one blocked only by a leftover swap file ROLLED_BACK, and one whose backup exists FAILED and recorded |
| ActivationRun.Host.ActivatePreparedUpdate | internal/selfupdate/activation_execute.go:39-91 | in every state the disk passes through the installed path is sound, and the backup is held after Stop; the returned status tells what is on disk and was started; without faults the plan's state decides the status |
| ActivationRun.SafeThroughout | internal/selfupdate/activation_execute.go:39-91 | carries the safety results from the machine to one execution's log |
| SemVer.CompareFlip | internal/selfupdate/version.go:146-248 | precedence is antisymmetric, and only versions equal up to build metadata tie |
| SemVer.CompareTransitive | internal/selfupdate/version.go:146-248 | precedence is transitive, strictly so when one step is strict |
| SemVer.NumericIdentsCompareAsNumbers | internal/selfupdate/version.go:190-227 | comparing numeric identifiers by length and then text compares their values, however long they are |
| SemVer.ParsedIsWellFormed | internal/selfupdate/version.go:42-135 | a parsed version has 64-bit core numbers and valid prerelease identifiers |
| PendingPlans.Scan | internal/selfupdate/activation_pending.go:103-156 | finds an entry iff one qualifies, and then the first with the latest modification time |
| PendingPlans.FindPendingActivation | internal/selfupdate/activation_pending.go:72-157 | over the files that can be read: finds a plan iff an eligible one is listed; the result is the newest: no outcome file seen, matching hash, strictly above version and floor |
| PendingPlans.OneSweepUpgrades | internal/selfupdate/activation_pending.go:130-139 | a picked plan's target is strictly above the running version |
| PendingPlans.NeverRerunsHistory | cmd/endpoint-agent/selfupdate_activation.go:123-151 | over any run of sweeps, whose activations may fail: after a version was activated everything that runs is at least it, and every later target strictly above it |
| PendingSweep.AttemptIsPaced | internal/selfupdate/activation_pending.go:163-183 | the whole-second marker costs the throttle less than one second |
| PendingSweep.Sweeper.RecordAttempt | internal/selfupdate/activation_pending.go:186-209 | a reliable write stores the whole second and the next count for this plan, and no other marker changes |
| PendingSweep.Sweeper.PrepareHelper | internal/selfupdate/activation_plan.go:75-97 | when nothing fails the helper is made exactly when the inputs are good, the file is absent and the executable hashes within the limit; it holds the executable's bytes; a refusal changes nothing |
| PendingSweep.Sweeper.Drive | cmd/endpoint-agent/selfupdate_activation.go:134-151 | throttled exactly by the marker; else recorded, and without faults the helper is started exactly when it can be prepared; attempts stay paced and no plan's helper is started twice while its file stays |
| PendingSweep.Sweeper.Sweep | cmd/endpoint-agent/selfupdate_activation.go:134-151 | drives exactly when an eligible plan is listed among the readable files, and then the newest; otherwise nothing changes |
| PendingSweep.Sweeper.Run | cmd/endpoint-agent/selfupdate_activation.go:134-151 | over any number of passes: reliable markers pace the attempts, and no plan gets a second helper while the files stay |
| PendingSweep.RetryIsRefused | cmd/endpoint-agent/selfupdate_activation.go:134-196 | the same for every sweeper: started, still eligible, unthrottled again, refused |
| PendingSweep.HelperKeepsEligible | internal/selfupdate/activation_plan.go:56-73 | a helper file never makes its own plan ineligible |
| PendingExample.BlockedHelper | internal/selfupdate/activation_pending.go:10-18 | a concrete deployment: the first pass starts the helper, it does not run, and after the interval the same eligible plan is refused |
| BackupClassify.ArchivesAreDenied | internal/dataprotection/backupmanifest_classify.go:60-93 | archives and only archives carry the archive mark and are always denied; mail archives under the mailbox class |
| BackupClassify.DenialIsInherited | internal/dataprotection/backupmanifest_classify.go:109-217 | nothing below a directory denied by its segments is ever let through |
| BackupWalk.HitIsExplained | internal/dataprotection/backupmanifest.go:267-334 | every emitted file lies at the end of a chain of admitted directories within the depth bound |
| BackupWalk.FileIsHit | internal/dataprotection/backupmanifest.go:267-334 | every file at the end of such a chain is emitted |
| BackupWalk.WalkIsExact | internal/dataprotection/backupmanifest.go:267-334 | the walk emits exactly those files, in listing order, with relative depth 1 to MaxDepth+1, for any canonicalizer |
| BackupCensus.WalkConserves | internal/dataprotection/backupmanifest.go:267-334 | the names listed below a directory and the directory itself are exactly its entries, denials, unresolved and listed directories |
| BackupManifest.RootsConserve | internal/dataprotection/backupmanifest.go:198-262 | the same over all requested roots |
| BackupManifest.Generator.RecordDenied | internal/dataprotection/backupmanifest.go:340-349 | the totals grow by one denial; an archive also counts as a container and lists the archive class |
| BackupManifest.Generator.WalkChild | internal/dataprotection/backupmanifest.go:279-333 | adds exactly the child's specified entries and its census to the totals |
| BackupManifest.Generator.Walk | internal/dataprotection/backupmanifest.go:267-334 | adds exactly the directory's specified entries and its census to the totals |
| BackupManifest.Generator.WalkRoot | internal/dataprotection/backupmanifest.go:209-238 | a root is echoed iff admitted, walked only when it canonicalizes plainly and is not denied; its entries and its census are added |
| BackupManifest.SortedKeys | internal/dataprotection/backupmanifest.go:417-425 | the keys of a set, each once, in strict order |
| BackupManifest.NamesAreTotallyOrdered | internal/dataprotection/backupmanifest_classify.go:11-22 | the ten class names are pairwise different and ordered |
| BackupManifest.Generate | internal/dataprotection/backupmanifest.go:198-262 | entries, counts and classes are the specified ones; roots plus names listed equal entries plus denied plus unresolved plus directories listed |
| BackupManifest.EntriesArePathFree | internal/dataprotection/backupmanifest.go:382-415 | every echoed root reference is an opaque token and every path class a known one |
| BackupWiring.MatcherIsWellClassed | internal/dataprotection/backupmanifest_classify.go:60-93 | the code's matcher meets what the conservation law asks of a matcher |
| BackupWiring.ListedFilesStayInside | internal/dataprotection/backupmanifest.go:279-333 | whatever the canonicalizer answers: with the code's own tests, a listed file and every directory on its way lie inside the managed root and under no denied place |
| Containment.WithinRootIsSegmentPrefix | internal/dataprotection/backupmanifest.go:362-377 | on absolute paths: contained iff the root's cleaned segments are a prefix, whatever their case |
| Containment.WithinRootIsInside | internal/dataprotection/backupmanifest.go:362-377 | on any paths: what is contained has the root's segments as a prefix and is absolute exactly when the root is |
| Containment.CanonicalPath | internal/files/whitelist.go:64-73 | the collapse loop ends and squeezes every run of slashes |
| Containment.CanonicalIsSqueezed | internal/files/whitelist.go:64-73 | no canonical path contains two slashes in a row |
| Containment.AllowedIsPiecePrefix | internal/files/whitelist.go:43-52 | allowed iff the root's canonical pieces are a prefix of the path's |
| Containment.AllowedIsPreorder | internal/files/whitelist.go:43-52 | the relation is reflexive and transitive |
| Containment.SlashAllowsOnlyItself | internal/files/whitelist.go:43-52 | an allowed root that canonicalizes to "/" admits exactly what canonicalizes to "/" |
| Containment.ChecksAgree | internal/files/whitelist.go:43-73 | on absolute canonical paths the two checks of the agent agree exactly unless the root is "/" and the path is not |
| UpgradeTable.HeaderTokenOffset | internal/inventory/outdated_software_parse.go:153-172 | the smallest offset of a candidate that stands as its own word, or -1 |
| UpgradeTable.DeriveColumns | internal/inventory/outdated_software_parse.go:129-148 | the columns the header's words describe |
| UpgradeTable.ScanTokens | internal/inventory/outdated_software_parse.go:266-328 | the loops find the first version pair and the id before it, or else the first id; the last-ditch branch is dead |
| UpgradeTable.ParseUpgradeLine | internal/inventory/outdated_software_parse.go:266-328 | the fallback of a line is what its fields say |
| UpgradeTable.ParseRows | internal/inventory/outdated_software_parse.go:74-104 | the first 512 packages of the rows, truncated iff there are more |
| UpgradeTable.ParseUpgradeOutput | internal/inventory/outdated_software_parse.go:49-104 | the loops compute the specified parse of the lines |
| UpgradeTable.OutputIsValid | internal/inventory/outdated_software_parse.go:190-263 | for every text: at most 512 packages, truncated means exactly 512, every id and version passes its test |
| UpgradeRoundTrip.RowRoundTrip | internal/inventory/outdated_software_parse.go:190-234 | a printed row parses to its triple whatever its name contains |
| UpgradeRoundTrip.HeaderColumns | internal/inventory/outdated_software_parse.go:129-172 | a printed header yields the columns it was printed with |
| UpgradeRoundTrip.TableRoundTrip | internal/inventory/outdated_software_parse.go:49-104 | a printed table under any separator line, also after a preamble, parses back to its first 512 triples, truncated iff there were more |
| AuthorizerCache.Bridge.AuthorizerFor | internal/app/remotebridge.go:439-455 | same id: same instance; new id: a fresh instance replaces it; failure changes nothing |
| AuthorizerCache.Bridge.ViewOnly | internal/app/remotebridge.go:520-533 | a blank or foreign device is refused; otherwise the provider's instance is used |
| AuthorizerCache.Bridge.PtyCached | internal/app/remotebridge.go:469-489 | a cached handler is used exactly for its own id |
| AuthorizerCache.Bridge.PtyInstall | internal/app/remotebridge.go:490-506 | the handler over the fetched instance is cached and used, or nothing is |
| AuthorizerCache.ServeAgain | internal/app/remotebridge.go:439-455 | each serving keeps the law of one instance per uninterrupted stay at an id |
| AuthorizerCache.SharedIffNeverReturns | internal/app/remotebridge.go:435-455 | one id means one instance iff no id is ever returned to |
| AuthorizerCache.OperationsShareAuthorizer | internal/app/remotebridge.go:485-533 | then all operations for one device id, by either path, ran with one authorizer |
| AuthorizerCache.BridgeSharesAuthorizer | internal/app/remotebridge.go:485-533 | the same of every bridge, however it came to its state |
| AuthorizerCache.ReturningSplitsTheGuard | internal/app/remotebridge.go:485-533 | a bridge that served A, B, A has run operations for A with two authorizers |
| AutoEnroll.Append | internal/autoenroll/runner.go:597-727 | one more event keeps the order law when it may follow, and a fatal one can only be the last |
| AutoEnroll.Runner.EnsureCert | internal/autoenroll/runner.go:362-423 | success holds the certificate just offered, closing the one it replaces, or closes the redundant offer and keeps all as it was; failure keeps the held one; no handle is lost or closed twice |
| AutoEnroll.Runner.WaitForCert | internal/autoenroll/runner.go:452-476 | success leaves exactly the handle of the certificate just offered open, held by nothing; it succeeds when nothing fails and it tries at all |
| AutoEnroll.Runner.CountHandles | internal/autoenroll/runner.go:362-476 | open handles are one for the waited certificate and one for the held one, each where it has one |
| AutoEnroll.Runner.Reconcile | internal/autoenroll/runner.go:487-531 | one request exactly when nothing is enrolled, the certificate changed or the token ran out; success leaves a valid stored record of the checked reply, bound to the loaded certificate |
| AutoEnroll.Runner.MaybeRefreshToken | internal/autoenroll/runner.go:537-574 | one request exactly in the refresh window; a reply is taken exactly when it has both token and expiry or neither, and a transient failure keeps the token; a refusal is reported |
| AutoEnroll.Runner.SendHeartbeat | internal/autoenroll/runner.go:597-645 | success exactly on an accepted heartbeat with neither grace window nor certificate over; the grace error exactly for an expired window, the refusal exactly for a refusal |
| AutoEnroll.Runner.PollAndExecute | internal/autoenroll/runner.go:663-727 | one poll after a clean heartbeat; success means the queue was empty or the result was delivered, with the same credential |
| AutoEnroll.Runner.Serve | internal/autoenroll/runner.go:319-347 | refreshes first exactly when the record is kept and its token is due; the tokenless error exactly after a refresh that took the token |
| AutoEnroll.Runner.Iterate | internal/autoenroll/runner.go:306-348 | success leaves the record bound to the held certificate and the queue served; a fatal error is reported exactly for a fatal last event; the tokenless error exactly after an empty refresh, whose record is stored; if nothing fails and every answer is good, it succeeds |
| AutoEnroll.Runner.RunLoop | internal/autoenroll/runner.go:271-303 | a fatal event is the last on the wire and what is returned; where nothing fails every tick is begun unless a fatal event ends the run; heartbeats use the stored record; the open handles are exactly the held one and the first wait's |
| AutoEnrollExample.EmptyRefreshIsStored | internal/autoenroll/runner.go:537-589 | an iteration whose refresh is answered with neither token nor expiry stores that and ends with the tokenless error |
| AutoEnrollExample.WaitedHandleStaysOpen | internal/autoenroll/runner.go:452-476 | a run that ends with the waited certificate's handle open besides the held one's |
| CredentialRunner.OrderlyAt | internal/app/runner.go:81-254 | the order law holds of every event of the process |
| CredentialRunner.ConfirmedMeansStored | internal/app/runner.go:397-440 | a confirmation line follows a welcomed heartbeat of a credential this process enrolled, stored, has not replaced since, and the disk holds |
| CredentialRunner.Runner.HydrateFromStore | internal/app/runner.go:312-341 | a readable stored credential becomes the identity without counting as stored by this process; the file is untouched |
| CredentialRunner.Runner.Enroll | internal/app/runner.go:343-395 | one request exactly when there is a token; the identity is the answer; the store is written whenever there is one, and the identity is marked stored exactly when that worked, as it does for a valid identity when nothing fails |
| CredentialRunner.Runner.Heartbeat | internal/app/runner.go:397-440 | success exactly on a welcome, once the client can sign; then "confirmed" exactly for the identity this process stored |
| CredentialRunner.Runner.SubmitResultWithFallback | internal/app/runner.go:200-245 | one submit, and exactly after 400, 413 or 422 a second one: the FAILED form with the same command, claim and attempt |
| CredentialRunner.Runner.SignIn | internal/app/runner.go:100-135 | at most two enrollments and two heartbeats; success means the last one was welcomed; with a token a 401 is final only after the second; an identity enrolled in this run is a stored one when the store works |
| CredentialRunner.Runner.RunOnce | internal/app/runner.go:81-198 | at most two enrollments, two heartbeats, one poll and two submits, in the order the law allows; success means an empty poll or a delivered result; when nothing fails and every answer is good, it polls and succeeds |
| CredentialRunner.Runner.RunLoop | internal/app/runner.go:286-304 | every run is begun, and the identity and store invariant and the order law hold over all of them |
| StableSorting.SortIsStable | internal/inventory/hotfix_posture_windows.go:421-437 | the result is in order and keeps tied elements in place |
| StableSorting.StableSortIsUnique | internal/inventory/hotfix_posture_windows.go:421-437 | for a strict weak order there is only one such list, whatever the algorithm |
| Hotfix.InstalledOrder | internal/inventory/hotfix_posture_windows.go:421-437 | the installed comparator is a strict weak order |
| Hotfix.PendingOrder | internal/inventory/hotfix_posture_windows.go:461-474 | the pending comparator is a strict weak order |
| Hotfix.MapInstalled | internal/inventory/hotfix_posture_windows.go:402-444 | the list is the front of the sorted kept rows; the count is taken before the cut |
| Hotfix.MapPending | internal/inventory/hotfix_posture_windows.go:447-492 | the list is the front of the sorted updates; the roll-up's counts add up to the total |
| Hotfix.RollUp | internal/inventory/hotfix_posture_windows.go:482-491 | whatever order the map is read in, one list comes out |
| Hotfix.RollupAccountsForAll | internal/inventory/hotfix_posture_windows.go:482-491 | the counts by category sum to the number of updates before the cut |
| Hotfix.PrimaryIsBest | internal/inventory/hotfix_posture_windows.go:617-670 | the primary category is a known one, or the default, and no known one ranks before it |
| Hotfix.PrimaryIgnoresOrder | internal/inventory/hotfix_posture_windows.go:617-670 | reordering or repeating the identifiers does not change it |

## Left out

- Windows paths: '/' is the only separator of a file name, and there are no volumes; text is ASCII, so Unicode case
  folding, multi-byte offsets and the header label "Verfügbar" are not part of this model.
- Foreign writers: during activation nobody else writes the plan, the staged binary, the backup or the installed path,
  and the installed path is none of the names derived from the staging root and id.
- ActivationRun.Host.ActivatePreparedUpdate: a `Host` is one helper process, so the call finds a history of one state;
  repeated and concurrent calls are the interleaved runs of `ActivationSafety`.
- Backup and upgrade-table environment: the disk and the canonicalizer answer the same question the same way throughout
  one walk; sizes are unbounded, where the source adds 64-bit integers.
- Two staging ids for one installed path: the interleavings are those of runs for one id.
- UpgradeRoundTrip.TableRoundTrip: the printed header ends with its last word, without a carriage return.
- HTTP, TLS, JSON, DPAPI, certificate selection and SHA-256: replaced by parameters and arbitrary answers; results about
  bytes are results about equal hashes.
- Reasons and log lines: reasons are a datatype and not text; only the confirmation lines are modelled; the redaction of
  reasons is left out.
- `WriteActivationPlan`, `BuildActivationPlan` and the stager: plans are whatever the plan file decodes to.
- High-water file: its write succeeds or fails; its contents are read only as text in the pending search.
- Sleeping, jitter, tickers, the state tracker, poll latency, command time-outs and the executor: results of commands
  are arbitrary; both runners' loops run for as many ticks as the caller gives them.
- AutoEnroll.Runner.RunLoop: the first pass is an ordinary iteration; the first-run jitter, which only sleeps or ends the
  pass with an error, and the pending sweep that only `RunOnce` calls are not in it.
- AutoEnroll.Runner.WaitForCert: gives up after a number of attempts where the source waits until its context ends.
- Transport details of the credential runner: nonces, signatures and canonical request paths; the store is read and
  written by this process only.
- The self-update hook after a submitted result, the managed wallpaper, the consent and server-name functions: easy members.
- Posture probes, local-admin counting, configuration loading, command-line dispatch: flag and enum mappings without an
  invariant.
- Hotfix agent health, source names and error codes: switches over fixed words.
