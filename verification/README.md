# A verified model of the campaign runner and its neighbours

This Dafny project models the parts of the system that decide what may be committed, who may
work on a campaign, and when work stops, and proves what they promise.

* **Campaigns.** A campaign is a list of steps that an unattended runner implements, reviews and
  commits one by one on a branch. Its durable status file is written by the runner (whose
  snapshot may be stale and is merged), by operators (`pause`, `cancel`, `revise`), by a
  background heartbeat and by the container observer. `StatusWriters` has the writers,
  `SharedStatus` their interleavings, `CampaignRunner` the runner as a class over the files of one
  campaign. Every answer of another system (git, implementer, executor, reviewer, reasoner,
  health, clock, lease) is arbitrary; between any two actions of the runner the other writers may
  write; any action may fail, and may be the last of its process.
  `CampaignWorld` holds the invariant that all of this keeps and the relation that no step may
  undo; `History`, `Review`, `Recovery` and `Reconcile` hold the rules it is built from,
  `ReviewLaws` what review and planning decide, without their order of questions; `Guarantees`
  says what the invariant means to somebody who looks at the files.
* **Path authority.** `Paths` models canonicalisation, the workspace parser and the prefix test on
  strings; `PathAuthority`, `CanonicalPaths` and `WorkspacePaths` prove what they mean on lists of
  names.
* **Leases.** `Leases` is the store with its two keyed records, `LeaseProtocol` any number of
  processes that acquire, renew, release and die.
* **Smaller cores.** `ExecuteChange` is the one-shot change pipeline, `ComfyGate` the admission
  gate with its idle latch, `StateCompat` the migration of old status files.

## How to read the runner

`CampaignRunner.Valid` is `Reached(campaign, start, now)`: the invariant `Inv` holds (`StatusInv`
about records, heads, flags, owners, workers and time, `AuthorityInv` about what steps may touch and
commits contain), and the state extends the one in which the current run began. Ghost fields count
what the source does not write down: `calls` (implementer calls so far, with worker and time of the
checkpoint), `mark` (calls and commits there were when a stop request last became durable, so that
`Effects`, what was started since, is calls plus branch length minus the mark), `failedReads`
(checkpoints that could not read the status since then), `faults` (failed or interrupted actions),
`open` and `orphans` (commits whose step is not accepted on disk) and `sleeps`. `time` is what the
clock shows, `clock` what the last checkpoint read off it. `Steady` and `Calm` say what bookkeeping
leaves alone; `Stopping` and `Shown`, that the run has stopped and that the disk shows it.

## Results where the code keeps less than one might expect

* A run that is interrupted between its local commit and the save that marks the step accepted
  leaves a commit that no record owns. `Guarantees.InterruptedCommitIsOrphaned` builds this state
  from any valid campaign; `Guarantees.BranchIsAcceptedCommits` shows that the branch is exactly
  the accepted steps' commits if and only if this has not happened, and `CampaignRunner.Operate`
  that it does not happen without a failed or interrupted action. `Guarantees.OrphanedIff` says
  which: the commit is orphaned exactly if the process ends before a save lands that carries the
  acceptance, and any later save of the same process, even the one that blocks the campaign, will
  do. If the process died before the new head was saved, nothing is ever committed or accepted
  again.
* A stop request allows one more implementer call or commit, and one more for every two checkpoints
  that cannot read the status file (`Guarantees.StopIsPrompt`): the runner passes two checkpoints
  between any two such effects, and either one that reads the file stops it. With `2n` unread
  checkpoints there can be `n + 1` effects (`Guarantees.UnreadCheckpointsAllowMore`).
* Step ids may repeat inside a campaign and inside a revision. Records stay sound exactly if they do
  not (`SharedStatus.ReviseKeepsDurableIff`, `CampaignWorld.FirstDurableIff`); the merge restores a
  disk's records exactly if no id repeats (`StatusWriters.MissingStepsIff`), and otherwise the next
  stale save drops a record (`StatusWriters.RepeatedIdIsDropped`).
* A prefix test compares names whose end has been trimmed twice
  (`CanonicalPaths.KeyIsTrimmedNames`). These are the names of the text exactly if the last one does
  not end in white space (`CanonicalPaths.KeyIsRawNames`); so a permitted path `a / /` also permits
  `a/b` (`CanonicalPaths.BlankPrefixAuthorises`). Authority over commits is meant in this sense.
* Canonicalising a campaign path is idempotent only if the last name does not become trimmable in
  the first pass (`CanonicalPaths.CanonicalisationSettles`, `CanonicalPaths.TwoPassesNeeded`), and
  parsing a container path gives the path back only if it does not end in white space
  (`WorkspacePaths.ContainerPathRoundTrip`, `WorkspacePaths.BlankNameIsLost`).
* `release` does not look at who calls it. It keeps the protocol sound if and only if no other
  process holds the campaign (`LeaseProtocol.ReleaseIsSoundIff`, and over whole runs
  `LeaseProtocol.RunIsSoundIff`); a holder that missed its deadline
  and releases afterwards lets two processes in (`LeaseProtocol.LateHolderBreaksExclusion`).
* The idle latch survives restarts and failed saves exactly as long as no running process of another
  activation, whose saves have not failed, gets to make its record (`ComfyGate.LatchHolds`,
  `ComfyGate.IdleLatchIsDurable`, `ComfyGate.ReturningActivationIsOpen`).
* The last activity is the latest of the times that survive in the record. All noted times survive
  exactly if no restart comes upon a file that a failed save has left behind
  (`ComfyGate.TimesSurviveIff`); otherwise the gate can close as idle right after admitting work
  (`ComfyGate.LostTimeClosesEarly`).
* A change that is not approved can still have made its commit, if git made it and then could not
  report its id (`ExecuteChange.ExecutePrepared`).
* `revise` appends to the log before it saves the status; if it stops in between, effective steps and
  records differ (`SharedStatus.TornRevision`).
* A dirty worktree of an interrupted step that a revision appended is never reset: the step is
  looked up in the campaign document only, and recovery ends in an error
  (`Reconcile.RevisedStepIsNeverReset`).
* A resumed run goes on after `recover` has blocked it; it then starts the implementer, but a
  worktree that is not at the recorded head still lets it commit and accept nothing
  (`CampaignRunner.RunInternal`).

## Model

| member | source | states |
|---|---|---|
| `Paths.NormalizeComponents` | crates/rack_ai_application/src/workspace_path.rs:13-51 | the stack loop computes the recursive resolution of the components, with its error on climbing above the root and on a root inside |
| `Paths.RejectDisallowed` | crates/rack_ai_domain/src/allowed_paths.rs:25-30 | the rejected paths are the changed paths that no allowed path allows |
| `Paths.RejectedInOrder` | crates/rack_ai_domain/src/allowed_paths.rs:25-30 | rejecting is a filter: it keeps order and repetitions |
| `Paths.SourcePaths` | crates/rack_ai_application/src/campaign.rs:411-417 | the kept paths are the paths that are not ephemeral |
| `Paths.SourcePathsInOrder` | crates/rack_ai_application/src/campaign.rs:411-417 | keeping is a filter: it keeps order and repetitions |
| `Paths.EphemeralMeans` | crates/rack_ai_application/src/campaign.rs:411-417 | a path is ephemeral exactly when its first part is `target` or `.rack-cargo` |
| `Paths.TrimMeans` | crates/rack_ai_application/src/campaign_paths.rs:9-20 | trimming cuts white space off both ends and nothing else |
| `Paths.TrimSlashesMeans` | crates/rack_ai_domain/src/allowed_path.rs:24-32 | exactly the slashes at the end are cut |
| `Paths.ComponentsMean` | crates/rack_ai_application/src/workspace_path.rs:13-51 | a root shows as a leading slash, `..` as any such part, `.` only as the very first part |
| `Paths.StringPrefixIsPartPrefix` | crates/rack_ai_domain/src/allowed_path.rs:29-32 | equal-or-starts-with-prefix-and-slash holds exactly when the slash-separated parts are a sequence prefix |
| `PathAuthority.UnderPrefixIsKeyPrefix` | crates/rack_ai_application/src/campaign_paths.rs:65-69 | for all strings that parse, the prefix test is the sequence-prefix relation on the parts of the canonical texts, trimmed once more |
| `PathAuthority.UnderPrefixTransitive` | crates/rack_ai_application/src/campaign_paths.rs:65-69 | being under a prefix is transitive, through canonicalisation on both sides |
| `PathAuthority.AssertedPathsAreAuthorized` | crates/rack_ai_application/src/campaign_paths.rs:71-90 | a change list that passes lies, path by path, under entries of the allow list |
| `PathAuthority.AnyAllowsIsAuthorized` | crates/rack_ai_application/src/campaign_paths.rs:59-63 | `path_is_authorized` finds an entry that the path is under |
| `PathAuthority.RequiredPrefixMeans` | crates/rack_ai_application/src/campaign_paths.rs:92-104 | a required path is satisfied exactly by a changed path under it with nothing unparsable in front; then some changed path lies under it |
| `PathAuthority.RequiredPrefixIff` | crates/rack_ai_application/src/campaign_paths.rs:92-104 | for a change list that parses, it is satisfied if and only if some changed path lies under it |
| `PathAuthority.PathIsAuthorizedMeans` | crates/rack_ai_application/src/campaign_paths.rs:59-63 | where there is an answer, it is whether the path lies under an entry |
| `PathAuthority.AssertedIff` | crates/rack_ai_application/src/campaign_paths.rs:71-90 | a change list passes if and only if the allow list parses and every change parses and lies under an entry |
| `PathAuthority.StepPathsPermittedIff` | crates/rack_ai_application/src/campaign.rs:363-386 | a step's paths pass if and only if every allowed and every required path parses and is covered |
| `PathAuthority.CoveredIff` | crates/rack_ai_application/src/campaign.rs:388-395 | a path is covered exactly by a permitted entry with none in front whose test is an error |
| `PathAuthority.AllowedPathDomain` | crates/rack_ai_domain/src/allowed_path.rs:8-25 | an allowed path is exactly a text that is not blank, absolute, climbing or with a NUL |
| `PathAuthority.AllowedPathsDomain` | crates/rack_ai_application/src/campaign_paths.rs:51-57 | a list of allowed paths is accepted exactly if it is not empty and every entry is still an allowed path after canonicalisation |
| `PathAuthority.CoveredIsAuthorized` | crates/rack_ai_application/src/campaign.rs:388-395 | a path covered by the permitted list is under one of its entries |
| `PathAuthority.StepAuthorityIsCampaignAuthority` | crates/rack_ai_application/src/campaign.rs:363-386 | whatever a validated step may touch, the campaign permits |
| `PathAuthority.CampaignPathAnatomy` | crates/rack_ai_application/src/campaign_paths.rs:9-42 | an accepted campaign path is a nonempty list of proper names, joined and trimmed once more |
| `CanonicalPaths.CampaignPathDomain` | crates/rack_ai_application/src/campaign_paths.rs:9-42 | campaign paths are exactly the trimmed relative texts without NUL, of names only, whose last name is not `..` once trimmed |
| `CanonicalPaths.CanonicalisationSettles` | crates/rack_ai_application/src/campaign_paths.rs:9-42 | canonicalising twice equals canonicalising once if and only if the raw text's last names meet a stated condition |
| `CanonicalPaths.TwoPassesNeeded` | crates/rack_ai_application/src/campaign_paths.rs:9-42 | the text `a / /` canonicalises to `a ` and that to `a` |
| `CanonicalPaths.KeyIsTrimmedNames` | crates/rack_ai_application/src/campaign_paths.rs:9-69 | what the test compares are always the names of the raw text with the end trimmed twice |
| `CanonicalPaths.KeyIsRawNames` | crates/rack_ai_application/src/campaign_paths.rs:9-69 | what the test compares are the names of the raw text if and only if the last one does not end in white space |
| `CanonicalPaths.UnderPrefixIsNamePrefix` | crates/rack_ai_application/src/campaign_paths.rs:65-69 | the prefix test is the sequence-prefix relation on component names with the end trimmed twice, and on the plain names when neither text ends in white space |
| `CanonicalPaths.BlankPrefixAuthorises` | crates/rack_ai_application/src/campaign_paths.rs:65-69 | `a/b` is under `a / /`, although the names of the one are no prefix of the names of the other |
| `WorkspacePaths.WorkspacePathDomain` | crates/rack_ai_application/src/workspace_path.rs:13-51 | `parse` succeeds exactly when no prefix of the components climbs above the root and the result is not empty |
| `WorkspacePaths.WorkspacePathRange` | crates/rack_ai_application/src/workspace_path.rs:13-51 | a parsed path is relative, nonempty, and has no dot, dot-dot or empty component |
| `WorkspacePaths.ParentCancels` | crates/rack_ai_application/src/workspace_path.rs:29-45 | a name and the `..` behind it cancel, wherever they stand |
| `WorkspacePaths.CurDirIsIgnored` | crates/rack_ai_application/src/workspace_path.rs:29-45 | a `.` changes nothing, wherever it stands |
| `WorkspacePaths.RelativeRequestMeans` | crates/rack_ai_application/src/workspace_path.rs:13-28 | a request is relative as it is, or absolute below the mount; nothing else gets further |
| `WorkspacePaths.ContainerPathRoundTrip` | crates/rack_ai_application/src/workspace_path.rs:57-60 | parsing `container_path()` gives back the same path if and only if it does not end in white space |
| `WorkspacePaths.BlankNameIsLost` | crates/rack_ai_application/src/workspace_path.rs:57-60 | a concrete request for which the round trip fails |
| `StatusWriters.MergeRunnerState` | crates/rack_ai_application/src/campaign_runner.rs:313-349 | the two merge loops compute the recursive merge; the merged pause flag is down after a resume and otherwise up if either side has it up, the cancel flag is up if either has it up, and the state is the proposed one unless the disk is cancelled |
| `StatusWriters.MissingSteps` | crates/rack_ai_application/src/campaign_runner.rs:313-349 | merging keeps the proposed records and appends exactly the disk's newer ones, in order |
| `StatusWriters.MissingRevisions` | crates/rack_ai_application/src/campaign_runner.rs:313-349 | merging a stale revision list restores the disk's list |
| `StatusWriters.MissingStepsIff` | crates/rack_ai_application/src/campaign_runner.rs:313-349 | an older snapshot is completed to the disk's records if and only if no id repeats among them |
| `StatusWriters.RepeatedIdIsDropped` | crates/rack_ai_application/src/campaign_runner.rs:313-349 | merging a stale snapshot drops the second of two new records with one id |
| `SharedStatus.StaleSaveAppendsNothing` | crates/rack_ai_application/src/campaign_runner.rs:313-349 | a stale save is a no-op on the disk's revisions and on its step ids, order and length included |
| `SharedStatus.ReviseKeepsDurable` | crates/rack_ai_application/src/campaign_runner.rs:626-695 | an accepted revision keeps records and effective steps aligned, ids distinct, and the count within `max_steps` |
| `SharedStatus.ReviseKeepsDurableIff` | crates/rack_ai_application/src/campaign_runner.rs:626-695 | an accepted revision keeps the records sound if and only if its step ids are distinct |
| `SharedStatus.StepKeepsInv` | crates/rack_ai_application/src/campaign_runner.rs:299-349 | every writer keeps the shared invariant, with any number of stale runners |
| `SharedStatus.RunKeepsInv` | crates/rack_ai_application/src/campaign_runner.rs:299-349 | so does every interleaving of them |
| `SharedStatus.DiskTracksRevisions` | crates/rack_ai_application/src/campaign_runner.rs:313-349 | in every reachable state the disk's ids are the effective steps' ids, at most `max_steps`, and any runner's save changes neither |
| `SharedStatus.TornRevision` | crates/rack_ai_application/src/campaign_runner.rs:672-684 | after the log append, records and effective steps agree exactly if the save lands |
| `SharedStatus.CancelHolds` | crates/rack_ai_application/src/campaign_runner.rs:588-624 | after a durable cancel every write leaves the state or sets Cancelled, a runner save sets it, and end time and reason stay |
| `SharedStatus.CancelIsALatch` | crates/rack_ai_application/src/campaign_runner.rs:313-349 | the same over every interleaving of saves, resumed saves, pause, revise, heartbeats and container writes |
| `SharedStatus.PauseIff` | crates/rack_ai_application/src/campaign_runner.rs:313-349 | after a write a pause is requested exactly if the write asks for one, or one was requested and the write is neither a resumed save nor a cancellation |
| `SharedStatus.PauseStandsIff` | crates/rack_ai_application/src/campaign_runner.rs:313-349 | over every interleaving a requested pause stands throughout if and only if there is no resumed save and no cancellation |
| `SharedStatus.SavePublishes` | crates/rack_ai_application/src/campaign_runner.rs:313-349 | without a cancellation on disk a save publishes the snapshot but for the operator's flags and later revisions; with one it keeps the cancellation's account of the end |
| `SharedStatus.LogGrowsOnlyWhenStopped` | crates/rack_ai_application/src/campaign_runner.rs:626-695 | only `revise` extends the log, under a paused or blocked status, by new ids within the limit and inside authority, and records its instruction and time |
| `SharedStatus.SideWritesStayAside` | crates/rack_ai_application/src/campaign_runner.rs:3047-3078 | a heartbeat shows only on a running campaign and only in its activity, keeping step and worker that it does not name; a container callback changes the container alone |
| `SharedStatus.CancelMeans` | crates/rack_ai_application/src/campaign_runner.rs:588-624 | a cancellation ends what has not ended, leaves the account of what has, and withdraws a pause |
| `History.EmbedsLength` | crates/rack_ai_application/src/campaign_runner.rs:1498-1555 | accepted commits that embed into the branch and are as many are the branch, in order |
| `History.NumberedOneToN` | crates/rack_ai_application/src/campaign_runner.rs:3122-3124 | numbering by total attempts yields exactly 1 to N in step order |
| `History.AttemptKeepsHistory` | crates/rack_ai_application/src/campaign_runner.rs:1881-1899 | recording an attempt on the current step keeps order, numbering, the attempt cap, kinds, the shown review, the disposition that the attempts give, and owned commits |
| `History.AttemptKeepsAssigned` | crates/rack_ai_application/src/campaign_runner.rs:1881-1899 | an attempt of its kind's worker that continues the attempt numbered before it keeps all records so |
| `History.CommittedKeepsHistory` | crates/rack_ai_application/src/campaign_runner.rs:1923-1934 | accepting an implementation appends exactly its commit to the commits that accepted steps own |
| `History.VerifiedKeepsHistory` | crates/rack_ai_application/src/campaign_runner.rs:969-987 | accepting a verification step changes no ownership |
| `CampaignWorld.SaveKeepsInv` | crates/rack_ai_application/src/campaign_runner.rs:299-349 | saving the runner's snapshot keeps the invariant, undoes no accepted record and no answered stop request |
| `CampaignWorld.SaveKeepsSettled` | crates/rack_ai_application/src/campaign_runner.rs:299-349 | a save shows a campaign as completed only with all its steps accepted |
| `CampaignWorld.FlagWriteKeepsInv` | crates/rack_ai_application/src/campaign_runner.rs:568-624 | pause, cancel, heartbeat and container writes keep it |
| `CampaignWorld.ReviseKeepsInv` | crates/rack_ai_application/src/campaign_runner.rs:626-695 | a revision keeps it, including the authority of commits already made |
| `CampaignWorld.RestartKeepsInv` | crates/rack_ai_application/src/campaign_runner.rs:738-757 | a new process keeps it; a commit left without record becomes an orphan, and a wrong recorded head freezes the run |
| `CampaignWorld.ReadKeepsInv` | crates/rack_ai_application/src/campaign_runner.rs:2856-2859 | rereading the flags and finding none set answers every stop request so far |
| `CampaignWorld.FailedReadKeepsInv` | crates/rack_ai_application/src/campaign_runner.rs:2856-2859 | a checkpoint that cannot read the status excuses half an effect, and two of them one |
| `CampaignWorld.EffectKeepsInv` | crates/rack_ai_application/src/campaign_runner.rs:1164-1185 | an implementer call keeps the invariant when the two checkpoints before it have answered every stop request and the last of them came before the deadline |
| `CampaignWorld.AttemptKeepsInv` | crates/rack_ai_application/src/campaign_runner.rs:1881-1899 | recording an attempt in the snapshot keeps the invariant and the step current |
| `CampaignWorld.CommittedKeepsInv` | crates/rack_ai_application/src/campaign_runner.rs:1923-1934 | marking the step accepted gives the waiting commit its one owner |
| `CampaignWorld.CommitKeepsInv` | crates/rack_ai_application/src/campaign_runner.rs:1498-1513 | a reviewed commit at the recorded head keeps the invariant before and after the new head is read |
| `CampaignWorld.CompleteKeepsInv` | crates/rack_ai_application/src/campaign_runner.rs:894-911 | a run that has accepted every effective step, while no revision can be let in, may complete the campaign |
| `CampaignWorld.ReviewedCommitFits` | crates/rack_ai_application/src/campaign_runner.rs:1455-1509 | reviewed changes of a validated step stay inside the campaign's permitted paths |
| `CampaignWorld.ExtendsTransitive` | crates/rack_ai_application/src/campaign_runner.rs:798-911 | what no step undoes, no run undoes; a frozen run stays frozen without a commit |
| `CampaignWorld.FirstWorld` | crates/rack_ai_application/src/campaign_runner.rs:512-542 | the status of a valid new campaign satisfies the invariant |
| `CampaignWorld.FirstDurableIff` | crates/rack_ai_application/src/campaign_runner.rs:512-542 | the first status of a valid campaign is sound if and only if its step ids are distinct |
| `Review.AcceptedMeans` | crates/rack_ai_application/src/campaign_review.rs:127-213 | an accepted attempt changed only authorised paths, passed its commands, misses no artifact and, for an implementation, changed something under every required path |
| `Review.AcceptedMayCommit` | crates/rack_ai_application/src/campaign_review.rs:215-261 | what the review of an implementation accepts may be committed: nonempty, not ephemeral, authorised |
| `Review.AcceptedPassed` | crates/rack_ai_application/src/campaign_runner.rs:1260-1300 | an implementation is accepted only if its commands all passed with every artifact there, or nothing had changed when they were due |
| `ReviewLaws.AcceptedIff` | crates/rack_ai_application/src/campaign_review.rs:127-290 | an attempt is accepted if and only if its changes are inside, its worker kept to its tools and did not fail, its commands passed, its artifacts are there and an implementation has delivered what is required |
| `ReviewLaws.RejectionMeans` | crates/rack_ai_application/src/campaign_review.rs:127-290 | what each rejection stands for, and which of them end the step |
| `ReviewLaws.NotRetryable` | crates/rack_ai_application/src/campaign.rs:158-169 | policy, authority, expiry, continuity and the operator are no failures that another attempt can mend |
| `ReviewLaws.DemotedIff` | crates/rack_ai_application/src/campaign_runner.rs:1420-1431 | a rejection can be tried again exactly if its classification can, and an unclassified one can |
| `ReviewLaws.UnclassifiedIsDiagnosed` | crates/rack_ai_application/src/campaign_runner.rs:1583-1610 | a rejection without a classification can be tried again and is diagnosed at once |
| `ReviewLaws.PlanOutcome` | crates/rack_ai_application/src/campaign_runner.rs:1583-1769 | for every answer of the reasoner: no answer, a blocking answer and a wish for a fallback that is not left end the step, an insufficient authority as such, and nothing else does |
| `ReviewLaws.PickMeans` | crates/rack_ai_application/src/campaign_runner.rs:1029-1076 | the loop stops exactly when no attempt is left, and otherwise takes the primary worker first, a fallback on demand or behind the repairs |
| `Review.PlanMeans` | crates/rack_ai_application/src/campaign_runner.rs:1600-1700 | the repeat count goes up by one exactly after the same fingerprint, and a plan that continues with the fallback worker has one left |
| `Review.TurnFollows` | crates/rack_ai_application/src/campaign_runner.rs:1029-1076 | one pass of the loop keeps the discipline and the order of the kinds, counts repetitions exactly, and spends a budget it had |
| `Review.TurnInOrder` | crates/rack_ai_application/src/campaign_runner.rs:1029-1076 | the primary worker comes first and once, and a fallback before the repairs are used up only on demand |
| `Review.PassTracked` | crates/rack_ai_application/src/campaign_runner.rs:1029-1582 | one more pass keeps variables, passes and records in step: kinds, workers, links and numbers |
| `Review.FollowingMeans` | crates/rack_ai_application/src/campaign_runner.rs:1000-1016 | the loop variables bound the passes by one primary, the repairs and the fallbacks of the policy |
| `Review.MirrorsNext` | crates/rack_ai_application/src/campaign_runner.rs:1524-1540 | one more pass leaves at most one more record, of its kind, by the kind's worker, continuing the attempt numbered before it |
| `Review.CallsNext` | crates/rack_ai_application/src/campaign_runner.rs:1155-1216 | the calls of one more pass are one more group, all to the worker of its kind |
| `Review.GroupedBound` | crates/rack_ai_application/src/campaign_runner.rs:1155-1216 | grouped calls are at most as many as passes times the calls of one attempt |
| `Review.RepeatedRepairChangesStrategy` | crates/rack_ai_application/src/campaign_runner.rs:1672-1694 | a same-worker repair decided for a repeated failure is followed by a fallback attempt or by none |
| `Recovery.WaitsAreTheConfiguredDelays` | crates/rack_ai_application/src/campaign_runner.rs:3283-3291 | under a validated configuration the waits are the first configured delays, fewer than the attempts, each started inside the maximum wait |
| `Recovery.WaitsAreBounded` | crates/rack_ai_application/src/operations_config.rs:43-80 | recovery never waits longer than all configured delays together |
| `Recovery.DelaysRepeat` | crates/rack_ai_application/src/campaign_runner.rs:3283-3291 | the configured delays are used one by one and the last again and again, never less than the shortest, nor less than a second without any |
| `Recovery.ClampNeverFiresIff` | crates/rack_ai_application/src/operations_config.rs:60-64 | bounded waits never run past the configured delays if and only if the delays cover all attempts but the last, and then they are these delays |
| `Reconcile.FindIndex` | crates/rack_ai_application/src/campaign_runner.rs:3115-3120 | finds the first record with the id, or there is none |
| `Reconcile.ResetIsAuthorized` | crates/rack_ai_application/src/campaign_runner.rs:2753-2802 | an allowed reset discards only paths that the campaign and the interrupted step authorise |
| `Reconcile.ResetIff` | crates/rack_ai_application/src/campaign_runner.rs:2753-2802 | a dirty worktree is reset if and only if it lies inside the root, a running campaign was interrupted in one of five actions of an attempt not on record, and every dirty path is authorised by campaign and step |
| `Reconcile.RevisedStepIsNeverReset` | crates/rack_ai_application/src/campaign_runner.rs:2788-2792 | for a revised step the answer is an error exactly when a reset would have been considered |
| `CampaignRunning.CampaignRunner.Interfere` | crates/rack_ai_application/src/campaign_runner.rs:568-695 | any number of other writers keep the invariant, the recorded head and every accepted commit |
| `CampaignRunning.CampaignRunner.Revise` | crates/rack_ai_application/src/campaign_runner.rs:626-695 | accepts exactly the revisions that pass every check, and then extends log and records together |
| `CampaignRunning.CampaignRunner.Cancel` | crates/rack_ai_application/src/campaign_runner.rs:588-624 | keeps the invariant whatever else is under way, and from then on the state shows the cancellation |
| `CampaignRunning.CampaignRunner.BeatInBackground` | crates/rack_ai_application/src/campaign_runner.rs:3047-3078 | a background heartbeat moves no record, no head and no request |
| `CampaignRunning.CampaignRunner.ContainerChanged` | crates/rack_ai_application/src/campaign_container_tracker.rs:139-186 | neither does the container observer |
| `CampaignRunning.CampaignRunner.SaveWith` | crates/rack_ai_application/src/campaign_runner.rs:299-349 | a save, even one that fails after it has replaced the file, keeps the invariant; after success what the snapshot has accepted is accepted on disk, a newly owned commit closes the window, the disk shows state, reason and lease of the snapshot unless it is cancelled, and a resumed save has withdrawn the pause |
| `CampaignRunning.CampaignRunner.Heartbeat` | crates/rack_ai_application/src/campaign_runner.rs:2970-2987 | a heartbeat that succeeds has put the snapshot's head on disk and undone nothing |
| `CampaignRunning.CampaignRunner.RefreshBudget` | crates/rack_ai_application/src/campaign_runner.rs:2989-2999 | the clock is read, no time is left exactly from the deadline on, and before it what is left is the distance to it |
| `CampaignRunning.CampaignRunner.Block` | crates/rack_ai_application/src/campaign_runner.rs:2900-2927 | the run has stopped with the reason given, expired or cancelled exactly for these reasons, and the disk shows it |
| `CampaignRunning.CampaignRunner.Checkpoint` | crates/rack_ai_application/src/campaign_runner.rs:2849-2898 | it lets the run go on only before the deadline, and when it has read that no stop is requested, or could not read the status and then answers half of what an effect needs; two in a row answer every request; it stops as cancelled if that is requested, else as expired exactly past the deadline, else as paused, and the disk shows it |
| `CampaignRunning.CampaignRunner.SnapshotChecked` | crates/rack_ai_application/src/campaign_runner.rs:2423-2435 | evidence is returned only while HEAD is the recorded head |
| `CampaignRunning.CampaignRunner.PersistAttempt` | crates/rack_ai_application/src/campaign_runner.rs:1816-1921 | the next attempt is appended to the current step alone, with number, kind, worker, links, verdict and commit of the attempt made, and the waiting commit stays unclaimed |
| `CampaignRunning.CampaignRunner.MarkStepAccepted` | crates/rack_ai_application/src/campaign_runner.rs:1923-1934 | the step is accepted with its waiting commit, and success closes the window |
| `CampaignRunning.CampaignRunner.CallImplementer` | crates/rack_ai_application/src/campaign_runner.rs:1164-1185 | a call is started only behind a checkpoint that came before the deadline, to the worker that the snapshot shows, and adds one effect to those since a standing stop request |
| `CampaignRunning.CampaignRunner.RecoverAfterTransient` | crates/rack_ai_application/src/campaign_runner.rs:2563-2636 | it lets the request be repeated only behind a checkpoint before the deadline and within the attempts, after one configured wait; otherwise the run has stopped at a checkpoint or as blocked for want of the model |
| `CampaignRunning.CampaignRunner.ImplementWithRetries` | crates/rack_ai_application/src/campaign_runner.rs:1155-1216 | at most max(1, worker_recovery_max_attempts) calls, all to the one worker, with a checkpoint between any two; the result is no transport failure, and without one the run has stopped |
| `CampaignRunning.CampaignRunner.RecoverWorkerHealth` | crates/rack_ai_application/src/campaign_runner.rs:2638-2704 | terminates for every health answer; its waits follow the configured delays, no attempt is recorded, and without health the run has stopped |
| `CampaignRunning.CampaignRunner.ReviewWithRetries` | crates/rack_ai_application/src/campaign_runner.rs:2252-2341 | the reviewer is asked one to three times with waits a prefix of 2 and 5 seconds, and without an answer of its own the verdict is a terminal rejection, a timeout only after the third |
| `CampaignRunning.CampaignRunner.PlanRetry` | crates/rack_ai_application/src/campaign_runner.rs:1583-1769 | whatever the reasoner answers, the plan obeys the repeat count and the fallback budget |
| `CampaignRunning.CampaignRunner.JudgeAttempt` | crates/rack_ai_application/src/campaign_runner.rs:1300-1431 | the coordinator's review stands unless it accepts and a model reviewer is asked; a retryable rejection is planned, a failure that the model reviewer found not counting as a repetition, and the plan's verdict stands |
| `CampaignRunning.CampaignRunner.RunAcceptance` | crates/rack_ai_application/src/campaign_runner.rs:1936-1997 | success means that every command ran and passed and no artifact is missing |
| `CampaignRunning.CampaignRunner.RunCommands` | crates/rack_ai_application/src/campaign_runner.rs:1958-1981 | every command runs whatever the earlier ones did, unless one is malformed or the executor is gone |
| `CampaignRunning.CampaignRunner.MakeAttempt` | crates/rack_ai_application/src/campaign_runner.rs:1076-1431 | an attempt that returns a verdict has recorded nothing yet, called only its worker, and told the review what the commands it ran came to; otherwise the run has stopped |
| `CampaignRunning.CampaignRunner.InspectBeforeCommit` | crates/rack_ai_application/src/campaign_runner.rs:1453-1500 | changes that reach the commit are reviewed once more, at the recorded head |
| `CampaignRunning.CampaignRunner.StopRecording` | crates/rack_ai_application/src/campaign_runner.rs:1216-1236 | a run that stops at a checkpoint inside an attempt has put the attempt on record with the verdict so far |
| `CampaignRunning.CampaignRunner.CommitLocal` | crates/rack_ai_application/src/campaign_runner.rs:1498-1513 | a commit needs an answered checkpoint, the recorded head and authorised changes; a commit without a result is a failed action |
| `CampaignRunning.CampaignRunner.CommitAccepted` | crates/rack_ai_application/src/campaign_runner.rs:1433-1556 | an accepted attempt ends with its step accepted and its commit owned, or with the run stopped and no commit, unless an action failed |
| `CampaignRunning.CampaignRunner.ConcludeRejected` | crates/rack_ai_application/src/campaign_runner.rs:1524-1579 | the loop goes on only after a recorded retryable rejection with budget left; it stops only with the reason of a terminal or unmendable rejection or without budget |
| `CampaignRunning.CampaignRunner.ExecuteImplementation` | crates/rack_ai_application/src/campaign_runner.rs:1000-1581 | terminates for every answer; passes obey the policy, the order of kinds and the fallback discipline, with repetitions counted exactly; the attempts recorded are those of the passes, by kind, worker and link; calls fall into one group for each pass, to its worker; it stops only at a checkpoint, at the attempt cap, without budget or by its last pass, and the run shows it; acceptance means passed commands, or no changes when they were due |
| `CampaignRunning.CampaignRunner.ChooseAttempt` | crates/rack_ai_application/src/campaign_runner.rs:1017-1076 | the next attempt is the one its budget asks for, behind a checkpoint and below the attempt cap; otherwise the run has stopped for that reason |
| `CampaignRunning.CampaignRunner.ExecuteVerification` | crates/rack_ai_application/src/campaign_runner.rs:925-998 | a verification step is accepted at the recorded head by its recorded attempt, with every command passed and every artifact there, and never commits; otherwise the run has stopped |
| `CampaignRunning.CampaignRunner.RecoverWorktree` | crates/rack_ai_application/src/campaign_runner.rs:2442-2511 | passes only at the recorded head with every dirty source path discarded; discarded paths are authorised, and none is discarded for a step that a revision brought; otherwise the run is blocked for continuity |
| `CampaignRunning.CampaignRunner.Recover` | crates/rack_ai_application/src/campaign_runner.rs:2437-2561 | the same with budget, executor and bounded worker recovery; no record changes, it passes only before the deadline, and otherwise the run has stopped |
| `CampaignRunning.CampaignRunner.RunStep` | crates/rack_ai_application/src/campaign_runner.rs:850-893 | with all earlier steps accepted, the run goes on only with this one accepted too and no commit unowned, and has otherwise stopped; while it is on, no revision is let in |
| `CampaignRunning.CampaignRunner.RunWithLease` | crates/rack_ai_application/src/campaign_runner.rs:798-911 | a run that completes has accepted every effective step; one that is no resume and finds the campaign blocked or ended, or any that knows of a standing stop request, calls nobody and commits nothing; when it returns the campaign is not running |
| `CampaignRunning.CampaignRunner.Claim` | crates/rack_ai_application/src/campaign_runner.rs:738-768 | the lease is on disk, and a resume has withdrawn the pause there and in the snapshot, keeping a cancellation |
| `CampaignRunning.CampaignRunner.Complete` | crates/rack_ai_application/src/campaign_runner.rs:894-911 | only a run that is on and has accepted every effective step completes the campaign |
| `CampaignRunning.CampaignRunner.RunInternal` | crates/rack_ai_application/src/campaign_runner.rs:738-796 | a run undoes nothing; with HEAD off the recorded head it commits and accepts nothing; without a failed action it leaves no commit unowned; a resume of what is not paused, blocked or running is refused and changes nothing; a run that is no resume of what is paused on request, blocked or ended, and any run of what is cancelled, calls nobody and commits nothing; completion, the end of running and the end of the lease are on disk |
| `CampaignRunning.CampaignRunner.ClearActiveLease` | crates/rack_ai_application/src/campaign_runner.rs:773-796 | clearing the lease id after a run leaves no further commit unowned, keeps what a completed run accepted, and shows on disk how the run ended |
| `CampaignRunning.CampaignRunner.Create` | crates/rack_ai_application/src/campaign_runner.rs:512-542 | a new campaign starts in the invariant with an empty branch |
| `CampaignRunning.CampaignRunner.Start` | crates/rack_ai_application/src/campaign_runner.rs:489-553 | only a valid document without a previous campaign starts one |
| `CampaignRunning.CampaignRunner.Operate` | crates/rack_ai_application/src/campaign_runner.rs:714-796 | every sequence of runs, resumptions and other writes keeps the invariant, undoes no accepted record, commit or cancellation, calls nobody and commits nothing once cancelled, leaves at most as many checkpoints unread as actions failed, and no commit unowned if none failed |
| `Guarantees.AcceptedStepsArePrefix` | crates/rack_ai_application/src/campaign_runner.rs:850-893 | accepted steps are a prefix of the effective steps, and nothing behind the first open step has been attempted |
| `Guarantees.AttemptsAreNumbered` | crates/rack_ai_application/src/campaign_runner.rs:1021-1076 | over all runs attempts are numbered exactly 1 to N, with N at most `max_total_attempts` |
| `Guarantees.CompletedIsAccepted` | crates/rack_ai_application/src/campaign_runner.rs:850-911 | over all runs a campaign is shown as completed only with every effective step accepted, those of revisions included |
| `Guarantees.AttemptsAreAssigned` | crates/rack_ai_application/src/campaign_runner.rs:1029-1076 | over all runs every recorded fallback is by the fallback worker and every other attempt by the primary, and a repair or fallback names the attempt numbered right before it, or zero if its loop had made none |
| `Guarantees.BranchIsAcceptedCommits` | crates/rack_ai_application/src/campaign_runner.rs:1498-1555 | the branch is exactly the accepted steps' commits in order if and only if it is as long, which is if and only if no commit was left unowned; then the recorded head is the last one |
| `Guarantees.OrphanedIff` | crates/rack_ai_application/src/campaign_runner.rs:1512-1555 | a waiting commit gets its owner with the first save that lands and carries the acceptance, and is orphaned exactly if the process ends before that |
| `Guarantees.AcceptedOwnsOneCommit` | crates/rack_ai_application/src/campaign_runner.rs:1923-1934 | a step owns a commit of the branch exactly when it is an accepted implementation, and then one |
| `Guarantees.CommitHasOneOwner` | crates/rack_ai_application/src/campaign_runner.rs:1923-1934 | no commit belongs to two steps |
| `Guarantees.CommitsStayInside` | crates/rack_ai_application/src/campaign_runner.rs:1455-1509 | every path of every commit is a source path under its step's and its campaign's allowed paths, for original and revised steps |
| `Guarantees.CommitsChangeWhatIsRequired` | crates/rack_ai_application/src/campaign_review.rs:295-304 | every commit changes something under every required path of its step |
| `Guarantees.StopIsPrompt` | crates/rack_ai_application/src/campaign_runner.rs:2706-2751 | while a stop request stands, the implementer calls and commits started since are at most one, plus one for every two checkpoints that could not read the status |
| `Guarantees.EffectsAreInTime` | crates/rack_ai_application/src/campaign_runner.rs:2849-2898 | over all runs every implementer call and every commit was let through by a checkpoint that read a time before the deadline, and calls went to the two workers only |
| `Guarantees.DeadlineStands` | crates/rack_ai_application/src/campaign_runner.rs:2989-2999 | no run and nothing between runs moves the deadline |
| `Guarantees.UnreadCheckpointsAllowMore` | crates/rack_ai_application/src/campaign_runner.rs:2612-2620 | from a paused campaign, n recoveries of a transport failure with both checkpoints unread lead to n + 1 effects, for every n |
| `Guarantees.CancelStays` | crates/rack_ai_application/src/campaign_runner.rs:588-624 | whatever runs follow, a cancelled campaign stays cancelled, completed or expired |
| `Guarantees.InterruptedCommitIsOrphaned` | crates/rack_ai_application/src/campaign_runner.rs:1498-1555 | a process death between commit and save leaves one commit that no later run claims, and no step is accepted after it |
| `Leases.StaleIsExact` | crates/rack_ai_application/src/campaign_lease.rs:284-306 | the saturating deadline test equals the exact one for all 64-bit inputs |
| `Leases.RefusalClears` | crates/rack_ai_application/src/campaign_lease.rs:193-246 | a request that the repository refuses has removed another process's record of its campaign and nothing else; one that the campaign refuses has removed nothing |
| `Leases.LeaseStore.FailIfCampaignHeld` | crates/rack_ai_application/src/campaign_lease.rs:224-246 | refuses exactly a live, timely lease of another process, and removes any other |
| `Leases.LeaseStore.FailIfRepositoryHeld` | crates/rack_ai_application/src/campaign_lease.rs:193-222 | refuses exactly a live, timely lease of another process or of another campaign, removes any other that is not its own, and touches no other repository |
| `Leases.LeaseStore.Acquire` | crates/rack_ai_application/src/campaign_lease.rs:111-146 | grants exactly when neither record is held, and writes both, acquired and renewed now; a refusal may have removed a dead campaign record |
| `Leases.LeaseStore.Heartbeat` | crates/rack_ai_application/src/campaign_lease.rs:148-167 | succeeds exactly for the recorded process and renews both records |
| `Leases.LeaseStore.Release` | crates/rack_ai_application/src/campaign_lease.rs:169-184 | removes the campaign's records, whoever calls |
| `LeaseProtocol.MutualExclusion` | crates/rack_ai_application/src/campaign_lease.rs:111-146 | in a sound state one live process at most holds a repository, for whichever campaign |
| `LeaseProtocol.AcquireIsSoundIff` | crates/rack_ai_application/src/campaign_lease.rs:193-246 | a granted lease keeps soundness exactly when it takes nothing from a live holder, and it takes only from one that is late |
| `LeaseProtocol.RefusalKeepsSound` | crates/rack_ai_application/src/campaign_lease.rs:111-134 | a refused request takes nothing from a holder, late or not, although it may have removed a record |
| `LeaseProtocol.ReleaseIsSoundIff` | crates/rack_ai_application/src/campaign_lease.rs:169-184 | a release keeps soundness exactly when no other process holds the campaign |
| `LeaseProtocol.HeartbeatKeepsSound` | crates/rack_ai_application/src/campaign_lease.rs:148-167 | a heartbeat of any live process keeps soundness, holder or not |
| `LeaseProtocol.HeartbeatDefends` | crates/rack_ai_application/src/campaign_lease.rs:148-167 | after a heartbeat of a live process no other process, and no other campaign of the repository, is granted a lease up to two intervals and the action time after it |
| `LeaseProtocol.GrantDefends` | crates/rack_ai_application/src/campaign_lease.rs:111-146 | so it is after a grant, with the two intervals that were asked for |
| `LeaseProtocol.GrantsIff` | crates/rack_ai_application/src/campaign_lease.rs:193-322 | a request is granted if and only if each of the two records is missing, its own, of a dead process, or late |
| `LeaseProtocol.StepIsSoundIff` | crates/rack_ai_application/src/campaign_lease.rs:111-184 | every step keeps the protocol sound exactly unless a grant contends with a live holder or a release meets another one |
| `LeaseProtocol.TimelyDoesNotDisturb` | crates/rack_ai_application/src/campaign_lease.rs:186-246 | holders that have renewed, by their own clocks, no longer ago than their lease lasts are not contended with by any grant, and holders that release meet nobody |
| `LeaseProtocol.RunIsSoundIff` | crates/rack_ai_application/src/campaign_lease.rs:111-184 | a run is sound throughout if and only if none of its steps does that |
| `LeaseProtocol.RepositoryHasOneHolder` | crates/rack_ai_application/src/campaign_lease.rs:111-184 | over every such run, holders of one repository are one, and its two records agree |
| `LeaseProtocol.HeartbeatIsTheLatest` | crates/rack_ai_application/src/campaign_lease.rs:148-167 | without any timing assumption a heartbeat succeeds only for the process that was granted the campaign last |
| `LeaseProtocol.LateHolderBreaksExclusion` | crates/rack_ai_application/src/campaign_lease.rs:169-184 | a concrete run in which a late holder's release lets two live processes hold one campaign |
| `ExecuteChange.InspectAllowed` | crates/rack_ai_application/src/execute_change.rs:182-195 | a packet goes on if and only if git answers and shows allowed source paths only, and is otherwise rejected as failed or against policy |
| `ExecuteChange.Implement` | crates/rack_ai_application/src/execute_change.rs:197-268 | the packet goes on if and only if there is an implementer and it does its work; its own error and one it reports are rejected packets; one call at most |
| `ExecuteChange.RunChecks` | crates/rack_ai_application/src/execute_change.rs:270-354 | checks pass if and only if every command runs and succeeds and every artifact parses and can be read; failed checks mean all commands ran; the executor is unavailable exactly if it is missing or gone at the first command that did not run |
| `ExecuteChange.AssertArtifacts` | crates/rack_ai_application/src/execute_change.rs:356-369 | the artifacts are present if and only if every one parses and can be read |
| `ExecuteChange.Materialise` | crates/rack_ai_application/src/execute_change.rs:371-388 | approval if and only if there is nothing to commit or the commit is made and read, then with exactly one commit of exactly the source changes; a commit without approval is one whose id could not be read |
| `ExecuteChange.FinishStage` | crates/rack_ai_application/src/execute_change.rs:150-178 | approved if and only if the checks passed and inspection, attestation and commit behind them go well; packet and commits agree, but for a commit whose id could not be read |
| `ExecuteChange.ExecutePrepared` | crates/rack_ai_application/src/execute_change.rs:103-178 | for all answers of git, implementer, executor and commit: approved if and only if every one of them that is asked is good, then with all commands, artifacts, paths and the single commit right; every other end but a clean preparation is rejected with an error, and has made a commit only if git made it and could not report it |
| `ComfyGate.Activity.Save` | media/comfy_gate/gate.py:108-128 | a save that fails before or after the replacement sets the sticky flag |
| `ComfyGate.Activity.Observe` | media/comfy_gate/gate.py:64-99 | the in-place observation is the specified transition, its errors included |
| `ComfyGate.Activity.CloseIfIdle` | media/comfy_gate/gate.py:101-106 | closing is the specified transition on the observed evidence |
| `ComfyGate.ObserveKeepsAgreement` | media/comfy_gate/gate.py:64-99 | a successful observation answers with what is on disk and in memory; a failed save leaves them apart only under the sticky flag |
| `ComfyGate.ServeKeepsAgreement` | media/comfy_gate/gate.py:145-182 | memory and file agree unless the sticky flag is set, after every request and restart |
| `ComfyGate.ReportMeansLatched` | media/comfy_gate/gate.py:137-143 | a response that reports `idle_closed` means that the latch is on disk |
| `ComfyGate.LatchHolds` | media/comfy_gate/gate.py:145-182 | one request or restart lifts a latch exactly if it observes for a process of another, named activation whose saves have not failed and whose first save reaches the file; the latched activation admits nothing |
| `ComfyGate.IdleLatchIsDurable` | media/comfy_gate/gate.py:145-182 | over every run the latch stays down throughout if and only if no event meets that guard, and then every mutating or admit-job request of a closed activation is refused |
| `ComfyGate.OneActivationIsUndisturbed` | media/comfy_gate/gate.py:145-182 | runs whose processes all serve one activation are undisturbed |
| `ComfyGate.ReturningActivationIsOpen` | media/comfy_gate/gate.py:70-90 | an activation that returns after another has taken the file finds its latch lifted |
| `ComfyGate.LastActivityIsLatest` | media/comfy_gate/gate.py:64-128 | over every run of requests, restarts, other activations and failed saves, the record in memory and the one on file are the latest of their creation and of the accepted, busy or just-finished times noted in them, whatever the clock does |
| `ComfyGate.ServeKeepsTimes` | media/comfy_gate/gate.py:145-182 | a request notes its times in the record in force and loses none; only a restart can |
| `ComfyGate.TimesSurviveIff` | media/comfy_gate/gate.py:64-128 | over a run of one activation all noted times survive if and only if no restart comes upon a file that is behind the record in memory |
| `ComfyGate.LostTimeClosesEarly` | media/comfy_gate/gate.py:64-128 | a run in which an admitted prompt's time is lost and the gate closes one second later as idle for ten minutes |
| `ComfyGate.ClosedOnlyWhenIdle` | media/comfy_gate/gate.py:101-106 | an idle request of any run puts the latch down only on an empty queue and at least the timeout after every time that survives, which are all noted times when the run loses nothing |
| `ComfyGate.ObservedIff` | media/comfy_gate/gate.py:64-99 | an observation succeeds exactly for a process with a name, no failed save, a readable record and saves that land |
| `ComfyGate.FirstObservation` | media/comfy_gate/gate.py:64-99 | a process without a record of its own activation begins one at the creation time, open, and notes in it what the queue shows |
| `ComfyGate.StatusReports` | media/comfy_gate/gate.py:137-143 | a status request reports what is then in memory and on disk |
| `ComfyGate.MutationAdmittedIff` | media/comfy_gate/gate.py:145-175 | a mutation is let through if and only if it is authentic, the gate is open, and its access is the mode of the open gate |
| `ComfyGate.JobAdmittedIff` | media/comfy_gate/gate.py:145-182 | a job is admitted if and only if the gate is open in managed mode for the activation it names and its arrival is on record |
| `ComfyGate.IdleClosesIff` | media/comfy_gate/gate.py:101-106 | an idle request finds the gate closed if and only if it was, or the queue is empty and the timeout has passed |
| `ComfyGate.IdleOutsideLimits` | media/comfy_gate/gate.py:145-182 | one with another timeout or for another activation changes nothing |
| `StateCompat.MigrateMissingKinds` | crates/rack_ai_application/src/campaign_state_compat.rs:41-81 | the in-place migration succeeds exactly if every missing kind can be inferred, and then fills in exactly these |
| `StateCompat.TiedIsEvident` | crates/rack_ai_application/src/campaign_state_compat.rs:85-112 | the kinds that the attempt loop assigns with their linkage are the ones inferred from it |
| `StateCompat.InferredIff` | crates/rack_ai_application/src/campaign_state_compat.rs:85-112 | a fallback link decides before a repair link, without links the kind of the step does, and only an attempt that has neither cannot be told |
| `StateCompat.OnlyEvidentKindsReturn` | crates/rack_ai_application/src/campaign_state_compat.rs:85-112 | a step is restored exactly when each of its erased kinds is evident |
| `StateCompat.MigrationRestores` | crates/rack_ai_application/src/campaign_state_compat.rs:23-39 | whichever kinds a file has lost, reading it gives the identical records |
| `StateCompat.CampaignStatusSurvives` | crates/rack_ai_application/src/campaign_state_compat.rs:23-39 | so it does for every status that a campaign can reach |

## Left out

- Guarantees.BranchIsAcceptedCommits: assumes, with the whole runner model, that step ids are distinct inside a campaign and inside a revision, that only the runner's local commit moves HEAD, and that one runner is active at a time; loading the status and acquiring the lease are one step.
- SharedStatus.ReviseKeepsDurable: requires distinct step ids in the revision, which the source does not check; ReviseKeepsDurableIff shows that the property fails without.
- CampaignWorld.ReviseKeepsInv: the same.
- CampaignWorld.FirstWorld: requires distinct step ids in the campaign; FirstDurableIff shows that the property fails without.
- CampaignRunning.CampaignRunner.Create: the same.
- CampaignRunning.CampaignRunner.Start: requires distinct step ids for the same reason; creating the worktree and the directory is one answer that may fail.
- CampaignRunning.CampaignRunner.Revise: requires distinct step ids for the same reason; log append and status save are one step here, the gap between them is stated by TornRevision.
- CampaignRunning.CampaignRunner.Recover: the worktree's dirty paths are an answer of git, so a clean worktree is stated as "all reported source paths were discarded, or the run is blocked or in error"; a resumed run goes on after a block.
- CampaignRunning.CampaignRunner.RecoverWorktree: the digest, base, branch and worktree comparisons are one arbitrary answer.
- CampaignRunning.CampaignRunner.RunAcceptance: timeouts and the bounded excerpts of command output are not modelled.
- LeaseProtocol.RepositoryHasOneHolder: process ids are not reused, a campaign names one repository, live holders renew, by their own clocks, before the last second of their lease, and only holders release.
- ComfyGate.Serve: the authority file's mode, secret and expiry are inputs of a request.
- ComfyGate.IdleLatchIsDurable: the activity file is changed by the gate's own processes only; times before the epoch do not occur.
- Error and prompt texts: classification by substrings is an arbitrary answer, as are fingerprints.
- Threads, operating-system locks, process and file-system plumbing: a locked section is one step, a background heartbeat an interleaved one.
- Retention pruning: easy selection by age and count.
- The supervisor's own blocking of a campaign (`mark_supervisor_blocked`): it reads the status without the lock and then saves a whole snapshot, so it can put older step records over newer ones of a process that is still running; the step history here assumes that it blocks only what nobody runs.
- Validation of paths, commands and limits beyond the checks that decide what may be touched; event logs; evidence files.
- `run_next_task.rs`, `task_dag.rs` and `task_spec.rs`, the parser plugin, the HTTPS proxy, the runtimes and the qualification tools.
