/**
 One campaign at one instant: the files on disk, the branch, and the snapshot the running
 process holds. `Inv` is what every step of every run keeps; `Extends` is what no step may
 undo. The transitions here are the atomic steps the runner is built from.
 */
module CampaignWorld {
  import opened Wrappers
  import opened Campaign
  import opened PathAuthority
  import opened Paths
  import opened StatusWriters
  import opened SharedStatus
  import opened History

  /**
   `open`: the newest commit is not owned by an accepted step on disk yet.
   `orphans`: commits a run left behind without accepting their step.
   `calls`: the implementer calls so far. `mark`: how many calls and commits there were, and
   `failedReads`: how many checkpoints could not read the status file, since a stop request last
   became durable.
   */
  datatype World = World(
    disk: CampaignStatus, log: seq<RevisionDocument>, branch: seq<Commit>, memory: CampaignStatus,
    open: bool, orphans: nat, calls: seq<Call>, mark: nat, failedReads: nat)

  /** Implementer calls and commits started since a stop request last became durable. */
  function Effects(w: World): int {
    |w.calls| + |w.branch| - w.mark
  }

  predicate StopRequested(status: CampaignStatus) {
    status.pauseRequested || status.cancelRequested
  }

  // ---------------------------------------------------------------- the invariant

  ghost predicate StepsPermitted(campaign: CampaignDocument, steps: seq<CampaignStep>) {
    forall i :: 0 <= i < |steps| ==> StepPermitted(steps[i], campaign.permittedPaths)
  }

  /** What a commit for `step` contains: source files only, all inside the step's and the
      campaign's authority, and a change under every path the step requires. */
  ghost predicate CommitFits(campaign: CampaignDocument, step: CampaignStep, commit: Commit) {
    && step.id == commit.stepId
    && commit.paths != []
    && (forall p :: p in commit.paths ==>
          !IsEphemeral(p) && Authorized(p, step.allowedPaths) && Authorized(p, campaign.permittedPaths))
    && (forall k :: 0 <= k < |step.requiredPaths| ==>
          RequiredPrefixSatisfied(commit.paths, step.requiredPaths[k]) == Ok(true))
  }

  ghost predicate CommitAuthorized(campaign: CampaignDocument, steps: seq<CampaignStep>, commit: Commit) {
    exists i :: 0 <= i < |steps| && CommitFits(campaign, steps[i], commit)
  }

  ghost predicate BranchSound(campaign: CampaignDocument, steps: seq<CampaignStep>, branch: seq<Commit>) {
    forall k :: 0 <= k < |branch| ==> CommitAuthorized(campaign, steps, branch[k])
  }

  predicate DistinctCommits(base: Sha, branch: seq<Commit>) {
    && (forall k :: 0 <= k < |branch| ==> branch[k].sha != base)
    && (forall j, k :: 0 <= j < k < |branch| ==> branch[j].sha != branch[k].sha)
  }

  /** The snapshot may run ahead of the disk, never behind it on an accepted record. */
  ghost predicate Agrees(memory: seq<StepStatus>, disk: seq<StepStatus>) {
    && |memory| <= |disk|
    && (forall i :: 0 <= i < |memory| && IsAccepted(disk[i]) ==> memory[i] == disk[i])
    && (forall i :: |memory| <= i < |disk| ==> Pristine(disk[i]))
  }

  /** The recorded head is the branch head or, after an interrupted commit, its parent. */
  predicate HeadsSound(base: Sha, branch: seq<Commit>, disk: Sha, memory: Sha) {
    && (disk == HeadOf(base, branch) || (branch != [] && disk == HeadOf(base, branch[..|branch| - 1])))
    && (memory == disk || memory == HeadOf(base, branch))
  }

  /** Every commit is owned by an accepted step, orphaned, or still in its window. */
  predicate Accounted(w: World) {
    var tags := AcceptedTags(w.disk.steps);
    && |w.branch| == |tags| + w.orphans + (if w.open then 1 else 0)
    && (w.open ==> w.branch != [] && Embeds(tags, Tags(w.branch[..|w.branch| - 1])))
    && (AcceptedTags(w.memory.steps) == tags ||
        (w.open && AcceptedTags(w.memory.steps) == tags + [TagOf(w.branch[|w.branch| - 1])]))
  }

  /** A recorded head that lags behind betrays an unowned commit; a snapshot that owns more
      commits than the disk knows the head. */
  predicate HeadOwned(base: Sha, w: World) {
    && (w.disk.headSha != HeadOf(base, w.branch) ==> w.open || w.orphans > 0)
    && (AcceptedTags(w.memory.steps) != AcceptedTags(w.disk.steps) ==> w.memory.headSha == HeadOf(base, w.branch))
  }

  /** The first second at which the campaign has used up its time. */
  function Deadline(campaign: CampaignDocument, status: CampaignStatus): nat {
    status.startTime + campaign.limits.maxRuntimeSeconds
  }

  predicate CallFits(campaign: CampaignDocument, status: CampaignStatus, call: Call) {
    && call.clearedAt < Deadline(campaign, status)
    && (call.worker == campaign.policy.primary || call.worker == campaign.policy.fallback)
  }

  /** Every recorded attempt is its worker's, and every call and commit was let through by a
      checkpoint before the deadline. */
  ghost predicate Scheduled(campaign: CampaignDocument, w: World) {
    && campaign.limits.maxRuntimeSeconds > 0
    && w.memory.startTime == w.disk.startTime
    && AllAssigned(campaign.policy, w.disk.steps)
    && AllAssigned(campaign.policy, w.memory.steps)
    && (forall k :: 0 <= k < |w.calls| ==> CallFits(campaign, w.disk, w.calls[k]))
    && (forall k :: 0 <= k < |w.branch| ==> w.branch[k].clearedAt < Deadline(campaign, w.disk))
  }

  predicate FlagsSound(w: World) {
    && (w.memory.pauseRequested ==> StopRequested(w.disk))
    && Effects(w) >= 0
    && (StopRequested(w.disk) ==> 2 * Effects(w) <= w.failedReads + 2)
  }

  predicate AllAccepted(steps: seq<StepStatus>) {
    forall i :: 0 <= i < |steps| ==> IsAccepted(steps[i])
  }

  /** A campaign in this state may be revised. */
  predicate Revisable(status: CampaignStatus) {
    status.state == Paused || status.state == Blocked
  }

  /** A completed campaign has all its steps accepted; a run that is about to complete it knows them
      all, and no revision can bring another. */
  predicate Settled(w: World) {
    && (w.disk.state == Completed ==> AllAccepted(w.disk.steps))
    && (w.memory.state == Completed ==>
          AllAccepted(w.memory.steps) && |w.memory.steps| == |w.disk.steps| && !Revisable(w.disk))
  }

  /** Everything that is known about records, heads, flags and the commits' owners. */
  ghost predicate StatusInv(campaign: CampaignDocument, w: World) {
    && Durable(campaign, w.log, w.disk)
    && StaleOf(w.memory, w.disk)
    && Lawful(campaign.limits.maxTotalAttempts, w.disk.steps, w.branch)
    && Lawful(campaign.limits.maxTotalAttempts, w.memory.steps, w.branch)
    && Agrees(w.memory.steps, w.disk.steps)
    && DistinctCommits(campaign.baseSha, w.branch)
    && HeadsSound(campaign.baseSha, w.branch, w.disk.headSha, w.memory.headSha)
    && Accounted(w)
    && HeadOwned(campaign.baseSha, w)
    && FlagsSound(w)
    && Scheduled(campaign, w)
    && Settled(w)
  }

  /** Everything that is known about what steps may touch and commits contain. */
  ghost predicate AuthorityInv(campaign: CampaignDocument, w: World) {
    && StepsPermitted(campaign, EffectiveSteps(campaign, w.log))
    && BranchSound(campaign, EffectiveSteps(campaign, w.log), w.branch)
  }

  ghost predicate Inv(campaign: CampaignDocument, w: World) {
    StatusInv(campaign, w) && AuthorityInv(campaign, w)
  }

  // ---------------------------------------------------------------- what never goes back

  predicate KeepsAccepted(before: seq<StepStatus>, after: seq<StepStatus>) {
    && |before| <= |after|
    && forall i :: 0 <= i < |before| && IsAccepted(before[i]) ==> after[i] == before[i]
  }

  predicate AcceptsNothing(before: seq<StepStatus>, after: seq<StepStatus>) {
    && |before| <= |after|
    && (forall i :: 0 <= i < |before| && IsAccepted(after[i]) ==> IsAccepted(before[i]))
    && (forall i :: |before| <= i < |after| ==> !IsAccepted(after[i]))
  }

  /** The worktree is not where the record says, and the running process knows no better. */
  predicate Frozen(campaign: CampaignDocument, w: World) {
    && w.disk.headSha != HeadOf(campaign.baseSha, w.branch)
    && w.memory.headSha == w.disk.headSha
    && (forall i :: 0 <= i < |w.memory.steps| && i < |w.disk.steps| && IsAccepted(w.memory.steps[i]) ==>
          IsAccepted(w.disk.steps[i]))
  }

  predicate StaysFrozen(campaign: CampaignDocument, w: World, t: World) {
    && Frozen(campaign, t)
    && t.branch == w.branch
    && t.disk.headSha == w.disk.headSha
    && AcceptsNothing(w.disk.steps, t.disk.steps)
  }

  ghost predicate Extends(campaign: CampaignDocument, w: World, t: World) {
    && w.branch <= t.branch
    && w.log <= t.log
    && EffectiveSteps(campaign, w.log) <= EffectiveSteps(campaign, t.log)
    && KeepsAccepted(w.disk.steps, t.disk.steps)
    && (w.disk.cancelRequested ==> t.disk.cancelRequested)
    && w.orphans <= t.orphans
    && w.calls <= t.calls
    && w.disk.startTime == t.disk.startTime
    && (Frozen(campaign, w) ==> StaysFrozen(campaign, w, t))
  }

  lemma ExtendsTransitive(campaign: CampaignDocument, a: World, b: World, c: World)
    requires Extends(campaign, a, b) && Extends(campaign, b, c)
    ensures Extends(campaign, a, c)
  {
    hide EffectiveSteps, Pristine;
    assert KeepsAccepted(a.disk.steps, c.disk.steps);
    if Frozen(campaign, a) {
      assert AcceptsNothing(a.disk.steps, c.disk.steps);
    }
  }

  lemma ExtendsReflexive(campaign: CampaignDocument, w: World)
    ensures Extends(campaign, w, w)
  {
  }

  /** No stop request has been followed by an effect that a checkpoint did not excuse. */
  predicate Clear(w: World) {
    StopRequested(w.disk) ==> 2 * Effects(w) <= w.failedReads
  }

  /** One more checkpoint, and no effect is left unexcused; two lie between any two effects. */
  predicate HalfClear(w: World) {
    StopRequested(w.disk) ==> 2 * Effects(w) <= w.failedReads + 1
  }

  predicate KeepsClear(w: World, t: World) {
    (Clear(w) ==> Clear(t)) && (HalfClear(w) ==> HalfClear(t))
  }

  // ---------------------------------------------------------------- saving the snapshot

  function AfterSave(w: World, resume: bool): World {
    var saved := Merged(w.disk, w.memory, resume);
    w.(disk := saved, open := w.open && |AcceptedTags(saved.steps)| == |AcceptedTags(w.disk.steps)|)
  }

  lemma SavedSteps(campaign: CampaignDocument, w: World, resume: bool)
    requires Inv(campaign, w)
    ensures |w.memory.steps| <= |w.disk.steps|
    ensures var saved := Merged(w.disk, w.memory, resume);
      && saved.steps == w.memory.steps + w.disk.steps[|w.memory.steps|..]
      && |saved.steps| == |w.disk.steps|
      && AcceptedTags(saved.steps) == AcceptedTags(w.memory.steps)
      && Lawful(campaign.limits.maxTotalAttempts, saved.steps, w.branch)
      && Agrees(w.memory.steps, saved.steps)
      && KeepsAccepted(w.disk.steps, saved.steps)
  {
    hide EffectiveSteps, Lawful, BranchSound, DistinctCommits, HeadsSound, Accounted, FlagsSound;
    hide StepsPermitted, Merged;
    assert DistinctRevisions(w.disk.revisions);
    StaleSaveAppendsNothing(w.disk, w.memory, resume);
    PristineKeepsHistory(campaign.limits.maxTotalAttempts, w.memory.steps, w.disk.steps[|w.memory.steps|..], w.branch);
  }

  lemma SaveKeepsDurable(campaign: CampaignDocument, w: World, resume: bool)
    requires Inv(campaign, w)
    ensures Durable(campaign, w.log, Merged(w.disk, w.memory, resume))
    ensures StaleOf(w.memory, Merged(w.disk, w.memory, resume))
  {
    hide EffectiveSteps, Lawful, BranchSound, DistinctCommits, HeadsSound, Accounted, FlagsSound;
    hide StepsPermitted, Agrees;
    hide DistinctSteps, HasStep, AddMissingSteps, AddMissingRevisions;
    assert DistinctRevisions(w.disk.revisions);
    StaleSaveAppendsNothing(w.disk, w.memory, resume);
    SameIdsKeepsDurable(campaign, w.log, w.disk, Merged(w.disk, w.memory, resume));
  }

  lemma SaveKeepsAccounts(w: World, resume: bool)
    requires Accounted(w)
    requires AcceptedTags(Merged(w.disk, w.memory, resume).steps) == AcceptedTags(w.memory.steps)
    ensures Accounted(AfterSave(w, resume))
  {
    hide Merged, AcceptedTags, Embeds;
  }

  lemma SaveKeepsFlags(base: Sha, w: World, resume: bool)
    requires FlagsSound(w) && (resume ==> !w.memory.pauseRequested)
    requires w.memory.cancelRequested ==> w.disk.cancelRequested
    requires HeadsSound(base, w.branch, w.disk.headSha, w.memory.headSha)
    ensures FlagsSound(AfterSave(w, resume))
    ensures HeadsSound(base, w.branch, AfterSave(w, resume).disk.headSha, w.memory.headSha)
    ensures KeepsClear(w, AfterSave(w, resume))
  {
    hide AcceptedTags, AddMissingSteps, AddMissingRevisions;
  }

  lemma SaveKeepsInv(campaign: CampaignDocument, w: World, resume: bool)
    requires Inv(campaign, w) && (resume ==> !w.memory.pauseRequested)
    ensures Inv(campaign, AfterSave(w, resume))
    ensures Extends(campaign, w, AfterSave(w, resume))
    ensures KeepsClear(w, AfterSave(w, resume))
  {
    hide Lawful, BranchSound, DistinctCommits, StepsPermitted, Durable, Accounted, FlagsSound;
    hide StaleOf, Clear, HalfClear, HeadOwned, HeadsSound;
    hide AcceptedTags, EffectiveSteps, KeepsAccepted, Extends, Agrees, Merged, SameIds, Scheduled, Settled;
    SavedSteps(campaign, w, resume);
    SaveKeepsSettled(w, resume);
    SaveKeepsDurable(campaign, w, resume);
    SaveExtends(campaign, w, resume);
    MemorySound(campaign, w);
    FlagsFromInv(campaign, w);
    SaveKeepsSchedule(campaign, w, resume);
    SaveKeepsAccounts(w, resume);
    SaveKeepsHead(campaign.baseSha, w, resume);
    SaveKeepsFlags(campaign.baseSha, w, resume);
  }

  lemma SaveKeepsSchedule(campaign: CampaignDocument, w: World, resume: bool)
    requires Scheduled(campaign, w) && |w.memory.steps| <= |w.disk.steps|
    requires Merged(w.disk, w.memory, resume).steps == w.memory.steps + w.disk.steps[|w.memory.steps|..]
    ensures Scheduled(campaign, AfterSave(w, resume))
    ensures AfterSave(w, resume).disk.startTime == w.disk.startTime
  {
    hide AddMissingSteps, AddMissingRevisions, AcceptedTags, Assigned;
    AssignedConcat(campaign.policy, w.memory.steps, w.disk.steps[|w.memory.steps|..]);
    hide AllAssigned;
  }

  lemma FlagsFromInv(campaign: CampaignDocument, w: World)
    requires Inv(campaign, w)
    ensures FlagsSound(w) && HeadsSound(campaign.baseSha, w.branch, w.disk.headSha, w.memory.headSha)
    ensures w.memory.cancelRequested ==> w.disk.cancelRequested
    ensures Scheduled(campaign, w) && w.memory.startTime == w.disk.startTime
  {
  }

  lemma SaveKeepsSettled(w: World, resume: bool)
    requires Settled(w) && |w.memory.steps| <= |w.disk.steps|
    requires Merged(w.disk, w.memory, resume).steps == w.memory.steps + w.disk.steps[|w.memory.steps|..]
    ensures Settled(AfterSave(w, resume))
  {
    hide AddMissingSteps, AddMissingRevisions, AcceptedTags, IsAccepted;
    assert Merged(w.disk, w.memory, resume).state == if w.disk.cancelRequested then Cancelled else w.memory.state;
    hide Merged;
  }

  lemma SaveKeepsHead(base: Sha, w: World, resume: bool)
    requires HeadOwned(base, w) && HeadsSound(base, w.branch, w.disk.headSha, w.memory.headSha)
    requires AcceptedTags(Merged(w.disk, w.memory, resume).steps) == AcceptedTags(w.memory.steps)
    ensures HeadOwned(base, AfterSave(w, resume))
  {
    hide AcceptedTags, AddMissingSteps, AddMissingRevisions, Embeds;
  }

  lemma SaveExtends(campaign: CampaignDocument, w: World, resume: bool)
    requires Inv(campaign, w)
    requires var saved := Merged(w.disk, w.memory, resume);
      && saved.steps == w.memory.steps + w.disk.steps[|w.memory.steps|..]
      && KeepsAccepted(w.disk.steps, saved.steps)
    ensures Extends(campaign, w, AfterSave(w, resume))
  {
    hide Inv, EffectiveSteps, AddMissingSteps, AddMissingRevisions, AcceptedTags, IsAccepted, Scheduled;
    hide FlagsSound, HeadsSound;
    FlagsFromInv(campaign, w);
    if Frozen(campaign, w) {
      SavedStaysFrozen(campaign, w, resume);
    }
  }

  lemma SavedStaysFrozen(campaign: CampaignDocument, w: World, resume: bool)
    requires Inv(campaign, w) && Frozen(campaign, w)
    requires Merged(w.disk, w.memory, resume).steps == w.memory.steps + w.disk.steps[|w.memory.steps|..]
    ensures Frozen(campaign, AfterSave(w, resume))
    ensures AcceptsNothing(w.disk.steps, Merged(w.disk, w.memory, resume).steps)
  {
    hide EffectiveSteps, Lawful, BranchSound, DistinctCommits, StepsPermitted, Durable, Accounted, FlagsSound, StaleOf;
    hide AddMissingSteps, AddMissingRevisions, AcceptedTags;
  }

  // ---------------------------------------------------------------- other writers

  /** An operator, heartbeat or container write; a new stop request starts a new count. */
  function AfterWrite(w: World, disk: CampaignStatus): World {
    if StopRequested(disk) && !StopRequested(w.disk) then
      w.(disk := disk, mark := |w.calls| + |w.branch|, failedReads := 0)
    else
      w.(disk := disk)
  }

  /** A write that leaves the records, the head and every request standing. */
  predicate FlagWrite(w: World, disk: CampaignStatus) {
    && disk.steps == w.disk.steps
    && disk.revisions == w.disk.revisions
    && disk.headSha == w.disk.headSha
    && disk.startTime == w.disk.startTime
    && CancelShows(disk)
    && (w.disk.cancelRequested ==> disk.cancelRequested)
    && (StopRequested(w.disk) ==> StopRequested(disk))
    && (disk.state == Completed ==> w.disk.state == Completed)
    && (Revisable(disk) ==> Revisable(w.disk))
  }

  // None of these writers loses a record, a head or a request.

  lemma PauseWrites(w: World)
    requires CancelShows(w.disk)
    ensures FlagWrite(w, PauseWrite(w.disk))
  {
  }

  lemma CancelWrites(w: World, reason: Option<string>, now: nat)
    ensures FlagWrite(w, CancelWrite(w.disk, reason, now))
    ensures CancelWrite(w.disk, reason, now).cancelRequested && CancelShows(CancelWrite(w.disk, reason, now))
  {
  }

  lemma BeatWrites(w: World, activity: Activity)
    requires CancelShows(w.disk)
    ensures FlagWrite(w, BeatWrite(w.disk, activity))
  {
  }

  lemma ContainerWrites(w: World, container: Option<string>)
    requires CancelShows(w.disk)
    ensures FlagWrite(w, ContainerWrite(w.disk, container))
  {
  }

  lemma FlagWriteKeepsDurable(campaign: CampaignDocument, w: World, disk: CampaignStatus)
    requires Durable(campaign, w.log, w.disk) && FlagWrite(w, disk) && StaleOf(w.memory, w.disk)
    ensures Durable(campaign, w.log, disk) && StaleOf(w.memory, disk)
  {
    hide EffectiveSteps, DistinctSteps, DistinctRevisions, HasStep;
    SameIdsKeepsDurable(campaign, w.log, w.disk, disk);
  }

  lemma FlagWriteKeepsFlags(w: World, disk: CampaignStatus)
    requires FlagsSound(w) && FlagWrite(w, disk)
    ensures FlagsSound(AfterWrite(w, disk))
    ensures KeepsClear(w, AfterWrite(w, disk))
  {
  }

  lemma SameRecords(campaign: CampaignDocument, w: World, t: World)
    requires t.branch == w.branch && t.log == w.log && t.disk.steps == w.disk.steps && t.disk.headSha == w.disk.headSha
    requires t.memory == w.memory && t.open == w.open && t.orphans == w.orphans
    requires w.disk.cancelRequested ==> t.disk.cancelRequested
    requires t.calls == w.calls && t.disk.startTime == w.disk.startTime
    ensures Scheduled(campaign, w) ==> Scheduled(campaign, t)
    ensures Extends(campaign, w, t)
    ensures Accounted(w) ==> Accounted(t)
  {
    hide EffectiveSteps, AcceptedTags, Embeds, AllAssigned;
  }

  lemma FlagWriteKeepsInv(campaign: CampaignDocument, w: World, disk: CampaignStatus)
    requires Inv(campaign, w) && FlagWrite(w, disk)
    ensures Inv(campaign, AfterWrite(w, disk))
    ensures Extends(campaign, w, AfterWrite(w, disk))
    ensures KeepsClear(w, AfterWrite(w, disk))
  {
    hide EffectiveSteps, Lawful, BranchSound, DistinctCommits, StepsPermitted, Durable, StaleOf;
    hide FlagsSound, Accounted, Extends, Clear, HalfClear, Agrees, Scheduled, CancelShows;
    FlagWriteKeepsDurable(campaign, w, disk);
    FlagWriteKeepsFlags(w, disk);
    SameRecords(campaign, w, AfterWrite(w, disk));
  }

  function AfterRevise(w: World, revision: RevisionDocument, now: nat): World {
    w.(disk := ReviseWrite(w.disk, revision, now), log := w.log + [revision])
  }

  lemma AuthorizedThrough(campaign: CampaignDocument, steps: seq<CampaignStep>, more: seq<CampaignStep>,
                          branch: seq<Commit>)
    requires BranchSound(campaign, steps, branch)
    ensures BranchSound(campaign, steps + more, branch)
  {
    hide CommitFits;
    forall k | 0 <= k < |branch|
      ensures CommitAuthorized(campaign, steps + more, branch[k])
    {
      assert CommitAuthorized(campaign, steps, branch[k]);
      var i :| 0 <= i < |steps| && CommitFits(campaign, steps[i], branch[k]);
      assert (steps + more)[i] == steps[i];
    }
  }

  lemma ReviseExtends(campaign: CampaignDocument, w: World, revision: RevisionDocument, now: nat)
    requires EffectiveSteps(campaign, w.log + [revision]) == EffectiveSteps(campaign, w.log) + revision.steps
    requires |w.memory.steps| <= |w.disk.steps|
    ensures Extends(campaign, w, AfterRevise(w, revision, now))
    ensures KeepsClear(w, AfterRevise(w, revision, now))
  {
    hide EffectiveSteps;
  }

  lemma RevisePermitted(campaign: CampaignDocument, policy: Policy, disk: CampaignStatus, steps: seq<CampaignStep>,
                        revision: RevisionDocument)
    requires StepsPermitted(campaign, steps) && CanRevise(campaign, disk, revision, policy)
    ensures StepsPermitted(campaign, steps + revision.steps)
  {
    hide ValidStep, StepPermitted;
  }

  lemma ReviseKeepsRecords(limit: nat, w: World, revision: RevisionDocument, now: nat)
    requires Lawful(limit, w.disk.steps, w.branch) && Agrees(w.memory.steps, w.disk.steps)
    requires Accounted(w) && FlagsSound(w)
    ensures var t := AfterRevise(w, revision, now);
      && Lawful(limit, t.disk.steps, t.branch)
      && AcceptedTags(t.disk.steps) == AcceptedTags(w.disk.steps)
      && Agrees(t.memory.steps, t.disk.steps)
      && FlagsSound(t)
  {
    hide Lawful, AcceptedTags, Embeds, Accounted;
    PristineKeepsHistory(limit, w.disk.steps, PendingSteps(revision.steps), w.branch);
  }

  lemma SameTags(w: World, t: World)
    requires Accounted(w)
    requires t.branch == w.branch && t.memory.steps == w.memory.steps && t.open == w.open && t.orphans == w.orphans
    requires AcceptedTags(t.disk.steps) == AcceptedTags(w.disk.steps)
    ensures Accounted(t)
  {
    hide AcceptedTags, Embeds;
  }

  lemma ReviseKeepsInv(campaign: CampaignDocument, policy: Policy, w: World, revision: RevisionDocument, now: nat)
    requires Inv(campaign, w)
    requires CanRevise(campaign, w.disk, revision, policy) && Distinct(DocumentIds(revision.steps))
    ensures Inv(campaign, AfterRevise(w, revision, now))
    ensures Extends(campaign, w, AfterRevise(w, revision, now))
    ensures KeepsClear(w, AfterRevise(w, revision, now))
  {
    hide EffectiveSteps, Lawful, BranchSound, DistinctCommits, StepsPermitted, Durable, Accounted;
    hide FlagsSound, Agrees, Extends, Clear, HalfClear, CanRevise, SameIds, Scheduled, Settled;
    ReviseKeepsSettled(campaign, policy, w, revision, now);
    ReviseKeepsSchedule(campaign, w, revision, now);
    ReviseKeepsDurable(campaign, policy, w.log, w.disk, revision, now);
    EffectiveAppend(campaign, w.log, revision);
    AuthorizedThrough(campaign, EffectiveSteps(campaign, w.log), revision.steps, w.branch);
    RevisePermitted(campaign, policy, w.disk, EffectiveSteps(campaign, w.log), revision);
    ReviseKeepsRecords(campaign.limits.maxTotalAttempts, w, revision, now);
    SameTags(w, AfterRevise(w, revision, now));
    AgreesLength(w.memory.steps, w.disk.steps);
    ReviseExtends(campaign, w, revision, now);
    ReviseKeepsPrefix(w.disk, revision, now);
    StaleThroughAppend(w.memory, w.disk, AfterRevise(w, revision, now).disk);
  }

  lemma ReviseKeepsSchedule(campaign: CampaignDocument, w: World, revision: RevisionDocument, now: nat)
    requires Scheduled(campaign, w)
    ensures Scheduled(campaign, AfterRevise(w, revision, now))
  {
    hide Assigned;
    AssignedConcat(campaign.policy, w.disk.steps, PendingSteps(revision.steps));
  }

  lemma ReviseKeepsSettled(campaign: CampaignDocument, policy: Policy, w: World, revision: RevisionDocument, now: nat)
    requires Settled(w) && CanRevise(campaign, w.disk, revision, policy)
    ensures Settled(AfterRevise(w, revision, now))
  {
    assert Revisable(w.disk);
    hide CanRevise;
  }

  lemma AgreesLength(memory: seq<StepStatus>, disk: seq<StepStatus>)
    requires Agrees(memory, disk)
    ensures |memory| <= |disk|
  {
  }

  lemma ReviseKeepsPrefix(disk: CampaignStatus, revision: RevisionDocument, now: nat)
    ensures SameIds(disk.steps, ReviseWrite(disk, revision, now).steps)
  {
  }

  // ---------------------------------------------------------------- the running process

  /** A new process reads the file; a window that its predecessor left open stays an orphan. */
  function Restarted(w: World): World {
    w.(memory := w.disk, open := false, orphans := w.orphans + if w.open then 1 else 0)
  }

  lemma RestartKeepsInv(campaign: CampaignDocument, w: World)
    requires Inv(campaign, w)
    ensures Inv(campaign, Restarted(w))
    ensures !Restarted(w).open
    ensures w.disk.headSha != HeadOf(campaign.baseSha, w.branch) ==> Frozen(campaign, Restarted(w))
    ensures KeepsClear(w, Restarted(w))
  {
    hide EffectiveSteps, Lawful, BranchSound, DistinctCommits, StepsPermitted, Durable, AcceptedTags, Embeds;
  }

  /** Snapshot fields no save rule looks at. */
  predicate CoreEqual(a: CampaignStatus, b: CampaignStatus) {
    && a.steps == b.steps && a.revisions == b.revisions && a.headSha == b.headSha && a.startTime == b.startTime
    && a.pauseRequested == b.pauseRequested && a.cancelRequested == b.cancelRequested
    && (a.state == Completed ==> b.state == Completed)
  }

  lemma EditKeepsInv(campaign: CampaignDocument, w: World, memory: CampaignStatus)
    requires Inv(campaign, w) && CoreEqual(memory, w.memory)
    ensures Inv(campaign, w.(memory := memory))
    ensures Extends(campaign, w, w.(memory := memory))
  {
    hide EffectiveSteps, Lawful, BranchSound, DistinctCommits, StepsPermitted, Durable, AcceptedTags, Embeds;
  }

  /** The last step of a run: the snapshot shows the campaign as completed. */
  lemma CompleteKeepsInv(campaign: CampaignDocument, w: World, memory: CampaignStatus)
    requires Inv(campaign, w) && AllAccepted(w.memory.steps) && !Revisable(w.disk)
    requires |w.memory.steps| == |EffectiveSteps(campaign, w.log)|
    requires memory == w.memory.(state := memory.state, endTime := memory.endTime, activity := memory.activity)
    ensures Inv(campaign, w.(memory := memory))
    ensures Extends(campaign, w, w.(memory := memory))
  {
    hide EffectiveSteps, Lawful, BranchSound, DistinctCommits, StepsPermitted, AcceptedTags, Embeds, IsAccepted;
    hide DistinctSteps, RevisionsRecorded, AllAssigned;
  }

  function FlagsRead(w: World): World {
    w.(memory := w.memory.(pauseRequested := w.disk.pauseRequested, cancelRequested := w.disk.cancelRequested))
  }

  lemma ReadKeepsInv(campaign: CampaignDocument, w: World)
    requires Inv(campaign, w)
    ensures Inv(campaign, FlagsRead(w))
    ensures Extends(campaign, w, FlagsRead(w))
    ensures KeepsClear(w, FlagsRead(w))
    ensures !StopRequested(FlagsRead(w).memory) ==> Clear(FlagsRead(w)) && HalfClear(FlagsRead(w))
  {
    hide EffectiveSteps, Lawful, BranchSound, DistinctCommits, StepsPermitted, Durable, AcceptedTags, Embeds;
  }

  function ReadFailed(w: World): World {
    w.(failedReads := w.failedReads + 1)
  }

  lemma FailedReadKeepsInv(campaign: CampaignDocument, w: World)
    requires Inv(campaign, w)
    ensures Inv(campaign, ReadFailed(w))
    ensures HalfClear(ReadFailed(w)) && (HalfClear(w) ==> Clear(ReadFailed(w)))
    ensures KeepsClear(w, ReadFailed(w))
    ensures Extends(campaign, w, ReadFailed(w))
  {
    hide EffectiveSteps, Lawful, BranchSound, DistinctCommits, StepsPermitted, Durable, AcceptedTags, Embeds;
  }

  function AfterEffect(w: World, call: Call): World {
    w.(calls := w.calls + [call])
  }

  lemma EffectKeepsInv(campaign: CampaignDocument, w: World, call: Call)
    requires Inv(campaign, w) && Clear(w) && CallFits(campaign, w.disk, call)
    ensures Inv(campaign, AfterEffect(w, call))
    ensures Extends(campaign, w, AfterEffect(w, call))
  {
    hide EffectiveSteps, Lawful, BranchSound, DistinctCommits, StepsPermitted, Durable, AcceptedTags, Embeds;
  }

  // ---------------------------------------------------------------- recording an attempt

  function AfterAttempt(w: World, i: nat, attempt: StepAttempt, disposition: StepDisposition): World
    requires i < |w.memory.steps|
  {
    w.(memory := w.memory.(steps := WithAttempt(w.memory.steps, i, attempt, disposition)))
  }

  lemma MemoryTags(w: World, t: World)
    requires Accounted(w)
    requires t.branch == w.branch && t.disk == w.disk && t.open == w.open && t.orphans == w.orphans
    requires AcceptedTags(t.memory.steps) == AcceptedTags(w.memory.steps)
    ensures Accounted(t)
  {
    hide AcceptedTags, Embeds;
  }

  /** Changing the current record touches nothing the disk has accepted. */
  lemma CurrentEdit(memory: seq<StepStatus>, disk: seq<StepStatus>, i: nat, record: StepStatus)
    requires Agrees(memory, disk) && Current(memory, i)
    requires record.stepId == memory[i].stepId && record.kind == memory[i].kind
    ensures Agrees(memory[i := record], disk)
    ensures SameIds(memory, disk) ==> SameIds(memory[i := record], disk)
  {
  }

  lemma MemoryEditExtends(campaign: CampaignDocument, w: World, t: World)
    requires t == w.(memory := t.memory) && t.memory.headSha == w.memory.headSha
    requires |t.memory.steps| == |w.memory.steps|
    requires forall k :: 0 <= k < |t.memory.steps| && IsAccepted(t.memory.steps[k]) ==> IsAccepted(w.memory.steps[k])
    ensures Extends(campaign, w, t)
  {
    hide EffectiveSteps;
  }

  /** What an edit of the snapshot's records has to keep. */
  lemma RecordsEdit(campaign: CampaignDocument, w: World, steps: seq<StepStatus>)
    requires Inv(campaign, w)
    requires SameIds(steps, w.disk.steps) && Agrees(steps, w.disk.steps)
    requires Lawful(campaign.limits.maxTotalAttempts, steps, w.branch)
    requires Accounted(w.(memory := w.memory.(steps := steps)))
    requires HeadOwned(campaign.baseSha, w.(memory := w.memory.(steps := steps)))
    requires AllAssigned(campaign.policy, steps) && w.memory.state != Completed
    ensures Inv(campaign, w.(memory := w.memory.(steps := steps)))
  {
    hide AllAssigned;
    hide EffectiveSteps, Lawful, BranchSound, DistinctCommits, StepsPermitted, Durable, Accounted;
    hide Agrees, SameIds, HeadOwned;
  }

  /** A run that has a step to work on has not completed the campaign. */
  lemma CurrentIsNotCompleted(campaign: CampaignDocument, w: World, i: nat)
    requires Inv(campaign, w) && Current(w.memory.steps, i)
    ensures w.memory.state != Completed
  {
    CurrentIsOpen(w.memory.steps, i);
    assert Settled(w);
  }

  /** What recording an attempt makes of the snapshot's records. */
  lemma AttemptedRecords(campaign: CampaignDocument, w: World, i: nat, attempt: StepAttempt,
                         disposition: StepDisposition)
    requires Inv(campaign, w) && Current(w.memory.steps, i)
    requires attempt.attempt == TotalAttempts(w.memory.steps) + 1 <= campaign.limits.maxTotalAttempts
    requires i < |w.memory.steps| && KindTied(w.memory.steps[i].kind, attempt)
    requires disposition == DispositionOf(w.memory.steps[i].attempts + [attempt])
    ensures var t := AfterAttempt(w, i, attempt, disposition);
      && Lawful(campaign.limits.maxTotalAttempts, t.memory.steps, t.branch)
      && Accounted(t) && HeadOwned(campaign.baseSha, t)
      && Current(t.memory.steps, i)
      && AcceptedTags(t.memory.steps) == AcceptedTags(w.memory.steps)
  {
    MemorySound(campaign, w);
    hide Lawful, Accounted, HeadOwned, Inv, Agrees, SameIds, Current, AcceptedTags, TotalAttempts, DispositionOf;
    hide KindTied;
    var t := AfterAttempt(w, i, attempt, disposition);
    AttemptKeepsHistory(campaign.limits.maxTotalAttempts, w.memory.steps, w.branch, i, attempt, disposition);
    MemoryTags(w, t);
    AttemptOwned(campaign.baseSha, w, t);
  }

  lemma AttemptKeepsInv(campaign: CampaignDocument, w: World, i: nat, attempt: StepAttempt,
                        disposition: StepDisposition)
    requires Inv(campaign, w) && Current(w.memory.steps, i)
    requires attempt.attempt == TotalAttempts(w.memory.steps) + 1 <= campaign.limits.maxTotalAttempts
    requires KindTied(w.memory.steps[i].kind, attempt) && Assigned(campaign.policy, attempt)
    requires i < |w.memory.steps| && disposition == DispositionOf(w.memory.steps[i].attempts + [attempt])
    ensures var t := AfterAttempt(w, i, attempt, disposition);
      && Inv(campaign, t) && Extends(campaign, w, t)
      && Current(t.memory.steps, i)
      && AcceptedTags(t.memory.steps) == AcceptedTags(w.memory.steps)
  {
    CurrentIsNotCompleted(campaign, w, i);
    MemorySound(campaign, w);
    AttemptedRecords(campaign, w, i, attempt, disposition);
    AttemptExtends(campaign, w, i, attempt, disposition);
    hide Lawful, Accounted, HeadOwned, Inv, Agrees, Extends, SameIds, Current, AcceptedTags, TotalAttempts;
    hide DispositionOf, KindTied, Assigned, AllAssigned;
    var t := AfterAttempt(w, i, attempt, disposition);
    AttemptKeepsAssigned(campaign.policy, w.memory.steps, i, attempt, disposition);
    CurrentEdit(w.memory.steps, w.disk.steps, i, t.memory.steps[i]);
    RecordsEdit(campaign, w, t.memory.steps);
  }

  lemma AttemptExtends(campaign: CampaignDocument, w: World, i: nat, attempt: StepAttempt,
                       disposition: StepDisposition)
    requires i < |w.memory.steps| && disposition == DispositionOf(w.memory.steps[i].attempts + [attempt])
    ensures Extends(campaign, w, AfterAttempt(w, i, attempt, disposition))
  {
    NeverAcceptedByAttempts(w.memory.steps[i].attempts + [attempt]);
    hide Extends, DispositionOf;
    MemoryEditExtends(campaign, w, AfterAttempt(w, i, attempt, disposition));
  }

  lemma AttemptOwned(base: Sha, w: World, t: World)
    requires HeadOwned(base, w) && t == w.(memory := t.memory) && t.memory.headSha == w.memory.headSha
    requires AcceptedTags(t.memory.steps) == AcceptedTags(w.memory.steps)
    ensures HeadOwned(base, t)
  {
    hide AcceptedTags;
  }

  // ---------------------------------------------------------------- accepting a step

  function AfterAccept(w: World, i: nat, commit: Option<Sha>): World
    requires i < |w.memory.steps|
  {
    w.(memory := w.memory.(steps := WithAccepted(w.memory.steps, i, commit)))
  }

  lemma ThawedExtends(campaign: CampaignDocument, w: World, t: World)
    requires t == w.(memory := t.memory) && w.memory.headSha == HeadOf(campaign.baseSha, w.branch)
    ensures Extends(campaign, w, t)
  {
    hide EffectiveSteps;
  }

  lemma VerifiedKeepsInv(campaign: CampaignDocument, w: World, i: nat)
    requires Inv(campaign, w) && Current(w.memory.steps, i) && w.memory.steps[i].kind == Verification
    requires w.memory.headSha == HeadOf(campaign.baseSha, w.branch) && LastAccepted(w.memory.steps[i], None)
    ensures var t := AfterAccept(w, i, None);
      Inv(campaign, t) && Extends(campaign, w, t) && AcceptedTags(t.memory.steps) == AcceptedTags(w.memory.steps)
  {
    CurrentIsOpen(w.memory.steps, i);
    CurrentIsNotCompleted(campaign, w, i);
    hide EffectiveSteps, Lawful, BranchSound, DistinctCommits, StepsPermitted, Durable, Accounted;
    hide Agrees, Extends, SameIds, Current, AcceptedTags;
    var t := AfterAccept(w, i, None);
    VerifiedKeepsHistory(campaign.limits.maxTotalAttempts, w.memory.steps, w.branch, i);
    MemoryTags(w, t);
    assert t.memory.steps == w.memory.steps[i := t.memory.steps[i]];
    CurrentEdit(w.memory.steps, w.disk.steps, i, t.memory.steps[i]);
    RecordsEdit(campaign, w, t.memory.steps);
    hide Inv;
    ThawedExtends(campaign, w, t);
  }

  /** The newest commit still waits for its record. */
  predicate Unclaimed(w: World) {
    w.open && AcceptedTags(w.memory.steps) == AcceptedTags(w.disk.steps)
  }

  /** The newest commit belongs to `stepId` and no record has claimed it yet. */
  predicate InWindow(w: World, sha: Sha, stepId: string) {
    && Unclaimed(w)
    && w.branch != [] && TagOf(w.branch[|w.branch| - 1]) == Tag(sha, stepId)
    && w.memory.headSha == sha
  }

  lemma ClaimedTags(w: World, t: World, sha: Sha, stepId: string)
    requires Accounted(w) && InWindow(w, sha, stepId)
    requires t == w.(memory := t.memory) && t.memory.headSha == w.memory.headSha
    requires AcceptedTags(t.memory.steps) == AcceptedTags(w.memory.steps) + [TagOf(w.branch[|w.branch| - 1])]
    ensures Accounted(t)
    ensures forall base :: HeadOwned(base, w) ==> HeadOwned(base, t)
  {
    hide AcceptedTags, Embeds;
  }

  lemma WindowEmbeds(w: World, sha: Sha, stepId: string)
    requires Accounted(w) && InWindow(w, sha, stepId)
    ensures Embeds(AcceptedTags(w.memory.steps), Tags(w.branch[..|w.branch| - 1]))
  {
  }

  lemma MemorySound(campaign: CampaignDocument, w: World)
    requires Inv(campaign, w)
    ensures Lawful(campaign.limits.maxTotalAttempts, w.memory.steps, w.branch)
    ensures SameIds(w.memory.steps, w.disk.steps) && Agrees(w.memory.steps, w.disk.steps)
    ensures Accounted(w) && HeadOwned(campaign.baseSha, w)
    ensures AllAssigned(campaign.policy, w.memory.steps)
  {
    hide EffectiveSteps, AcceptedTags, Embeds, BranchSound, StepsPermitted;
  }

  lemma WindowHead(w: World, i: nat, sha: Sha)
    requires i < |w.memory.steps| && InWindow(w, sha, w.memory.steps[i].stepId)
    ensures w.branch != [] && w.branch[|w.branch| - 1].sha == sha
    ensures w.branch[|w.branch| - 1].stepId == w.memory.steps[i].stepId
    ensures forall base :: w.memory.headSha == HeadOf(base, w.branch)
    ensures AcceptedTags(w.memory.steps) == AcceptedTags(w.disk.steps)
  {
    hide AcceptedTags;
  }

  /** What accepting an implementation step makes of the snapshot's records. */
  lemma CommittedRecords(campaign: CampaignDocument, w: World, i: nat, sha: Sha)
    requires Inv(campaign, w) && Current(w.memory.steps, i) && w.memory.steps[i].kind == Implementation
    requires InWindow(w, sha, w.memory.steps[i].stepId)
    requires LastAccepted(w.memory.steps[i], Some(sha))
    ensures var t := AfterAccept(w, i, Some(sha));
      && Lawful(campaign.limits.maxTotalAttempts, t.memory.steps, t.branch)
      && Accounted(t) && HeadOwned(campaign.baseSha, t)
      && |AcceptedTags(t.memory.steps)| == |AcceptedTags(w.disk.steps)| + 1
  {
    MemorySound(campaign, w);
    hide Lawful, Accounted, Agrees, SameIds, Current, AcceptedTags, Embeds, HeadOwned, Inv, InWindow, LastAccepted;
    WindowHead(w, i, sha);
    WindowEmbeds(w, sha, w.memory.steps[i].stepId);
    CommittedKeepsHistory(campaign.limits.maxTotalAttempts, w.memory.steps, w.branch, i, sha);
    ClaimedTags(w, AfterAccept(w, i, Some(sha)), sha, w.memory.steps[i].stepId);
  }

  lemma CommittedKeepsInv(campaign: CampaignDocument, w: World, i: nat, sha: Sha)
    requires Inv(campaign, w) && Current(w.memory.steps, i) && w.memory.steps[i].kind == Implementation
    requires InWindow(w, sha, w.memory.steps[i].stepId)
    requires LastAccepted(w.memory.steps[i], Some(sha))
    ensures var t := AfterAccept(w, i, Some(sha));
      Inv(campaign, t) && Extends(campaign, w, t) && |AcceptedTags(t.memory.steps)| == |AcceptedTags(w.disk.steps)| + 1
  {
    CurrentIsOpen(w.memory.steps, i);
    CurrentIsNotCompleted(campaign, w, i);
    MemorySound(campaign, w);
    CommittedRecords(campaign, w, i, sha);
    WindowHead(w, i, sha);
    hide Lawful, Accounted, Agrees, Extends, SameIds, Current, AcceptedTags, HeadOwned, Inv, InWindow, LastAccepted;
    hide AllAssigned;
    var t := AfterAccept(w, i, Some(sha));
    AcceptKeepsAssigned(campaign.policy, w.memory.steps, i, Some(sha));
    CurrentEdit(w.memory.steps, w.disk.steps, i, t.memory.steps[i]);
    RecordsEdit(campaign, w, t.memory.steps);
    ThawedExtends(campaign, w, t);
  }

  // ---------------------------------------------------------------- committing

  function AfterCommit(w: World, commit: Commit): World {
    w.(branch := w.branch + [commit], open := true)
  }

  function HeadRead(w: World): World
    requires w.branch != []
  {
    w.(memory := w.memory.(headSha := w.branch[|w.branch| - 1].sha))
  }

  lemma CommitKeepsBranch(campaign: CampaignDocument, steps: seq<CampaignStep>, branch: seq<Commit>, commit: Commit)
    requires BranchSound(campaign, steps, branch)
    requires FreshSha(campaign.baseSha, branch, commit.sha) && CommitAuthorized(campaign, steps, commit)
    requires DistinctCommits(campaign.baseSha, branch)
    ensures BranchSound(campaign, steps, branch + [commit])
    ensures DistinctCommits(campaign.baseSha, branch + [commit])
  {
    hide CommitAuthorized;
  }

  lemma CommitKeepsAccounts(w: World, commit: Commit)
    requires Accounted(w) && !w.open && Embeds(AcceptedTags(w.disk.steps), Tags(w.branch))
    ensures Accounted(AfterCommit(w, commit))
    ensures AcceptedTags(w.memory.steps) == AcceptedTags(w.disk.steps)
  {
    hide AcceptedTags, Embeds;
    assert (w.branch + [commit])[..|w.branch|] == w.branch;
  }

  lemma CommitMovesHead(campaign: CampaignDocument, w: World, commit: Commit)
    requires w.disk.headSha == w.memory.headSha == HeadOf(campaign.baseSha, w.branch)
    ensures HeadsSound(campaign.baseSha, AfterCommit(w, commit).branch, w.disk.headSha, w.memory.headSha)
    ensures HeadsSound(campaign.baseSha, AfterCommit(w, commit).branch, w.disk.headSha, commit.sha)
    ensures HeadOf(campaign.baseSha, AfterCommit(w, commit).branch) == commit.sha
    ensures Extends(campaign, w, AfterCommit(w, commit))
    ensures Extends(campaign, w, HeadRead(AfterCommit(w, commit)))
  {
    hide EffectiveSteps;
    assert (w.branch + [commit])[..|w.branch|] == w.branch;
  }

  lemma CommitKeepsInv(campaign: CampaignDocument, w: World, commit: Commit)
    requires Inv(campaign, w) && Clear(w) && !w.open
    requires w.disk.headSha == w.memory.headSha == HeadOf(campaign.baseSha, w.branch)
    requires FreshSha(campaign.baseSha, w.branch, commit.sha) && commit.clearedAt < Deadline(campaign, w.disk)
    requires CommitAuthorized(campaign, EffectiveSteps(campaign, w.log), commit)
    ensures var t := AfterCommit(w, commit);
      && Inv(campaign, t) && Extends(campaign, w, t)
      && Inv(campaign, HeadRead(t)) && Extends(campaign, w, HeadRead(t))
      && InWindow(HeadRead(t), commit.sha, commit.stepId)
  {
    hide EffectiveSteps, StepsPermitted, Durable, Agrees, Extends, AcceptedTags, Embeds, Lawful;
    hide BranchSound, DistinctCommits, SameIds, Settled, Scheduled, FlagsSound, Accounted, HeadOwned, HeadsSound;
    var t := AfterCommit(w, commit);
    CommitKeepsLawful(campaign.limits.maxTotalAttempts, w, commit);
    CommitKeepsBranch(campaign, EffectiveSteps(campaign, w.log), w.branch, commit);
    CommitKeepsAccounts(w, commit);
    CommitMovesHead(campaign, w, commit);
    CommitKeepsSchedule(campaign, w, commit);
    CommitOwned(campaign.baseSha, w, commit);
    MemoryTags(t, HeadRead(t));
    assert StaleOf(w.memory, w.disk) && StaleOf(HeadRead(t).memory, w.disk);
  }

  lemma CommitKeepsLawful(limit: nat, w: World, commit: Commit)
    requires Lawful(limit, w.disk.steps, w.branch) && Lawful(limit, w.memory.steps, w.branch)
    ensures Lawful(limit, w.disk.steps, w.branch + [commit]) && Lawful(limit, w.memory.steps, w.branch + [commit])
    ensures Embeds(AcceptedTags(w.disk.steps), Tags(w.branch))
  {
    CommitKeepsHistory(limit, w.disk.steps, w.branch, commit);
    CommitKeepsHistory(limit, w.memory.steps, w.branch, commit);
  }

  lemma CommitKeepsSchedule(campaign: CampaignDocument, w: World, commit: Commit)
    requires Scheduled(campaign, w) && commit.clearedAt < Deadline(campaign, w.disk)
    requires FlagsSound(w) && Clear(w) && Settled(w)
    ensures var t := AfterCommit(w, commit);
      && Scheduled(campaign, t) && Scheduled(campaign, HeadRead(t))
      && FlagsSound(t) && FlagsSound(HeadRead(t)) && Settled(t) && Settled(HeadRead(t))
  {
    hide AllAssigned;
  }

  lemma CommitOwned(base: Sha, w: World, commit: Commit)
    requires AcceptedTags(w.memory.steps) == AcceptedTags(w.disk.steps)
    ensures HeadOwned(base, AfterCommit(w, commit)) && HeadOwned(base, HeadRead(AfterCommit(w, commit)))
    ensures InWindow(HeadRead(AfterCommit(w, commit)), commit.sha, commit.stepId)
  {
    hide AcceptedTags;
  }

  // ---------------------------------------------------------------- the commit window between saves

  /** Between commits the snapshot and the disk own the same commits, so a save moves no window. */
  lemma SaveKeepsWindow(campaign: CampaignDocument, w: World, resume: bool)
    requires Inv(campaign, w)
    ensures var t := AfterSave(w, resume);
      && (Unclaimed(w) ==> Unclaimed(t))
      && (t.open ==> w.open)
      && (|AcceptedTags(w.memory.steps)| != |AcceptedTags(w.disk.steps)| ==> !t.open)
      && t.disk.headSha == w.memory.headSha
      && w.memory.steps <= t.disk.steps
  {
    SavedSteps(campaign, w, resume);
    hide Inv, AcceptedTags, AddMissingSteps, AddMissingRevisions;
  }

  lemma ReviseKeepsTags(campaign: CampaignDocument, w: World, revision: RevisionDocument, now: nat)
    requires Inv(campaign, w)
    ensures AcceptedTags(AfterRevise(w, revision, now).disk.steps) == AcceptedTags(w.disk.steps)
  {
    hide AcceptedTags, Embeds, Accounted, FlagsSound, Durable, BranchSound, DistinctCommits;
    PristineKeepsHistory(campaign.limits.maxTotalAttempts, w.disk.steps, PendingSteps(revision.steps), w.branch);
  }

  lemma {:induction false} EffectiveGrows(campaign: CampaignDocument, log: seq<RevisionDocument>,
                                          more: seq<RevisionDocument>)
    requires log <= more
    ensures EffectiveSteps(campaign, log) <= EffectiveSteps(campaign, more)
    decreases |more|
  {
    if |log| < |more| {
      EffectiveGrows(campaign, log, more[..|more| - 1]);
    } else {
      assert log == more;
    }
  }

  // ---------------------------------------------------------------- steps of a run that began in `start`

  ghost predicate Reached(campaign: CampaignDocument, start: World, w: World) {
    Inv(campaign, w) && Extends(campaign, start, w)
  }

  /** No checkpoint is undone, no window moves, no step is forgotten. */
  ghost predicate CalmStep(campaign: CampaignDocument, w: World, t: World) {
    && KeepsClear(w, t)
    && (Unclaimed(w) ==> Unclaimed(t))
    && (t.open ==> w.open)
    && t.memory.headSha == w.memory.headSha
    && EffectiveSteps(campaign, w.log) <= EffectiveSteps(campaign, t.log)
  }

  lemma EditStep(campaign: CampaignDocument, start: World, w: World, memory: CampaignStatus)
    requires Reached(campaign, start, w) && CoreEqual(memory, w.memory)
    ensures Reached(campaign, start, w.(memory := memory)) && CalmStep(campaign, w, w.(memory := memory))
  {
    hide Inv, Extends, AcceptedTags, EffectiveSteps;
    EditKeepsInv(campaign, w, memory);
    ExtendsTransitive(campaign, start, w, w.(memory := memory));
  }

  lemma CompleteStep(campaign: CampaignDocument, start: World, w: World, memory: CampaignStatus)
    requires Reached(campaign, start, w) && AllAccepted(w.memory.steps) && !Revisable(w.disk)
    requires |w.memory.steps| == |EffectiveSteps(campaign, w.log)|
    requires memory == w.memory.(state := memory.state, endTime := memory.endTime, activity := memory.activity)
    ensures Reached(campaign, start, w.(memory := memory)) && CalmStep(campaign, w, w.(memory := memory))
  {
    hide Inv, Extends, AcceptedTags, EffectiveSteps, AllAccepted, Revisable;
    CompleteKeepsInv(campaign, w, memory);
    ExtendsTransitive(campaign, start, w, w.(memory := memory));
  }

  lemma WriteStep(campaign: CampaignDocument, start: World, w: World, disk: CampaignStatus)
    requires Reached(campaign, start, w) && FlagWrite(w, disk)
    ensures Reached(campaign, start, AfterWrite(w, disk)) && CalmStep(campaign, w, AfterWrite(w, disk))
    ensures StopRequested(w.disk) ==> StopRequested(disk)
    ensures Revisable(disk) ==> Revisable(w.disk)
  {
    FlagWriteKeepsInv(campaign, w, disk);
    ExtendsTransitive(campaign, start, w, AfterWrite(w, disk));
    hide Inv, Extends, AcceptedTags, EffectiveSteps, Clear, HalfClear, CancelShows;
  }

  lemma ReviseStep(campaign: CampaignDocument, policy: Policy, start: World, w: World, revision: RevisionDocument,
                   now: nat)
    requires Reached(campaign, start, w)
    requires CanRevise(campaign, w.disk, revision, policy) && Distinct(DocumentIds(revision.steps))
    ensures Reached(campaign, start, AfterRevise(w, revision, now))
    ensures CalmStep(campaign, w, AfterRevise(w, revision, now))
    ensures AcceptedTags(AfterRevise(w, revision, now).disk.steps) == AcceptedTags(w.disk.steps)
  {
    hide Inv, Extends, AcceptedTags, EffectiveSteps, Clear, HalfClear, CanRevise;
    ReviseKeepsInv(campaign, policy, w, revision, now);
    ReviseKeepsTags(campaign, w, revision, now);
    ExtendsTransitive(campaign, start, w, AfterRevise(w, revision, now));
    EffectiveAppend(campaign, w.log, revision);
  }

  /** Only a resumed save withdraws a stop request. */
  lemma SaveKeepsRequest(w: World, resume: bool)
    ensures !resume && StopRequested(w.disk) ==> StopRequested(AfterSave(w, resume).disk)
    ensures AfterSave(w, resume).mark == w.mark && AfterSave(w, resume).calls == w.calls
  {
    hide AcceptedTags, AddMissingSteps, AddMissingRevisions;
  }

  lemma SaveStep(campaign: CampaignDocument, start: World, w: World, resume: bool)
    requires Reached(campaign, start, w) && (resume ==> !w.memory.pauseRequested)
    ensures var t := AfterSave(w, resume);
      && Reached(campaign, start, t) && CalmStep(campaign, w, t)
      && (|AcceptedTags(w.memory.steps)| != |AcceptedTags(w.disk.steps)| ==> !t.open)
      && t.disk.headSha == w.memory.headSha
      && w.memory.steps <= t.disk.steps
      && (!resume && StopRequested(w.disk) ==> StopRequested(t.disk))
  {
    hide Inv, Extends, AcceptedTags, EffectiveSteps, Clear, HalfClear, Merged;
    SaveKeepsRequest(w, resume);
    SaveKeepsInv(campaign, w, resume);
    SaveKeepsWindow(campaign, w, resume);
    ExtendsTransitive(campaign, start, w, AfterSave(w, resume));
  }

  lemma ReadStep(campaign: CampaignDocument, start: World, w: World)
    requires Reached(campaign, start, w)
    ensures Reached(campaign, start, FlagsRead(w)) && CalmStep(campaign, w, FlagsRead(w))
    ensures !StopRequested(FlagsRead(w).memory) ==> Clear(FlagsRead(w)) && HalfClear(FlagsRead(w))
  {
    hide Inv, Extends, AcceptedTags, EffectiveSteps, Clear, HalfClear;
    ReadKeepsInv(campaign, w);
    ExtendsTransitive(campaign, start, w, FlagsRead(w));
  }

  lemma FailedReadStep(campaign: CampaignDocument, start: World, w: World)
    requires Reached(campaign, start, w)
    ensures Reached(campaign, start, ReadFailed(w)) && CalmStep(campaign, w, ReadFailed(w))
    ensures HalfClear(ReadFailed(w)) && (HalfClear(w) ==> Clear(ReadFailed(w)))
  {
    hide Inv, Extends, AcceptedTags, EffectiveSteps, Clear, HalfClear;
    FailedReadKeepsInv(campaign, w);
    ExtendsTransitive(campaign, start, w, ReadFailed(w));
  }

  lemma AttemptStep(campaign: CampaignDocument, start: World, w: World, i: nat, attempt: StepAttempt,
                    disposition: StepDisposition)
    requires Reached(campaign, start, w) && Current(w.memory.steps, i)
    requires attempt.attempt == TotalAttempts(w.memory.steps) + 1 <= campaign.limits.maxTotalAttempts
    requires KindTied(w.memory.steps[i].kind, attempt) && Assigned(campaign.policy, attempt)
    requires i < |w.memory.steps| && disposition == DispositionOf(w.memory.steps[i].attempts + [attempt])
    ensures var t := AfterAttempt(w, i, attempt, disposition);
      Reached(campaign, start, t) && CalmStep(campaign, w, t) && Current(t.memory.steps, i)
  {
    hide Inv, Extends, AcceptedTags, EffectiveSteps, Current, TotalAttempts, KindTied;
    CurrentIsOpen(w.memory.steps, i);
    AttemptKeepsInv(campaign, w, i, attempt, disposition);
    ExtendsTransitive(campaign, start, w, AfterAttempt(w, i, attempt, disposition));
  }

  /** What accepting step `i` asks for. */
  ghost predicate Acceptable(campaign: CampaignDocument, w: World, i: nat, commit: Option<Sha>) {
    && Current(w.memory.steps, i)
    && LastAccepted(w.memory.steps[i], commit)
    && match commit
       case None => w.memory.steps[i].kind == Verification && w.memory.headSha == HeadOf(campaign.baseSha, w.branch)
       case Some(sha) =>
         && w.memory.steps[i].kind == Implementation
         && InWindow(w, sha, w.memory.steps[i].stepId)
  }

  lemma AcceptStep(campaign: CampaignDocument, start: World, w: World, i: nat, commit: Option<Sha>)
    requires Reached(campaign, start, w) && Acceptable(campaign, w, i, commit)
    ensures i < |w.memory.steps|
    ensures Reached(campaign, start, AfterAccept(w, i, commit))
    ensures commit.Some? ==>
      |AcceptedTags(AfterAccept(w, i, commit).memory.steps)| == |AcceptedTags(w.disk.steps)| + 1
  {
    if commit.Some? {
      CommittedKeepsInv(campaign, w, i, commit.value);
    } else {
      VerifiedKeepsInv(campaign, w, i);
    }
    ExtendsTransitive(campaign, start, w, AfterAccept(w, i, commit));
    hide Inv, Extends, AcceptedTags, EffectiveSteps, Current;
  }

  lemma EffectStep(campaign: CampaignDocument, start: World, w: World, call: Call)
    requires Reached(campaign, start, w) && Clear(w) && CallFits(campaign, w.disk, call)
    ensures Reached(campaign, start, AfterEffect(w, call))
    ensures Unclaimed(w) ==> Unclaimed(AfterEffect(w, call))
  {
    hide Inv, Extends, AcceptedTags, EffectiveSteps, Clear, HalfClear;
    EffectKeepsInv(campaign, w, call);
    ExtendsTransitive(campaign, start, w, AfterEffect(w, call));
  }

  /** What committing asks for. */
  ghost predicate Committable(campaign: CampaignDocument, w: World, commit: Commit) {
    && Clear(w) && !w.open
    && w.disk.headSha == w.memory.headSha == HeadOf(campaign.baseSha, w.branch)
    && FreshSha(campaign.baseSha, w.branch, commit.sha)
    && commit.clearedAt < Deadline(campaign, w.disk)
    && CommitAuthorized(campaign, EffectiveSteps(campaign, w.log), commit)
  }

  lemma CommitStep(campaign: CampaignDocument, start: World, w: World, commit: Commit)
    requires Reached(campaign, start, w) && Committable(campaign, w, commit)
    ensures var t := AfterCommit(w, commit);
      && Reached(campaign, start, t) && Reached(campaign, start, HeadRead(t))
      && InWindow(HeadRead(t), commit.sha, commit.stepId)
  {
    hide EffectiveSteps, Clear, HalfClear, CommitAuthorized;
    CommitKeepsInv(campaign, w, commit);
    var t := AfterCommit(w, commit);
    hide Inv, Extends, InWindow;
    ExtendsTransitive(campaign, start, w, t);
    ExtendsTransitive(campaign, start, w, HeadRead(t));
  }

  /** A change that review accepted for an effective step makes a commit that fits it. */
  lemma ReviewedCommitFits(campaign: CampaignDocument, steps: seq<CampaignStep>, i: nat, commit: Commit)
    requires StepsPermitted(campaign, steps) && i < |steps| && steps[i].id == commit.stepId
    requires commit.paths != []
    requires forall p :: p in commit.paths ==> !IsEphemeral(p) && Authorized(p, steps[i].allowedPaths)
    requires forall k :: 0 <= k < |steps[i].requiredPaths| ==>
      RequiredPrefixSatisfied(commit.paths, steps[i].requiredPaths[k]) == Ok(true)
    ensures CommitAuthorized(campaign, steps, commit)
  {
    var step := steps[i];
    assert StepPermitted(step, campaign.permittedPaths);
    hide IsEphemeral, Authorized, RequiredPrefixSatisfied, AssertStepPathsPermitted, StepsPermitted;
    forall p | p in commit.paths
      ensures Authorized(p, campaign.permittedPaths)
    {
      StepAuthorityIsCampaignAuthority(p, step.allowedPaths, step.requiredPaths, campaign.permittedPaths);
    }
    assert CommitFits(campaign, step, commit);
  }

  // ---------------------------------------------------------------- from one run to the next

  /** The recorded head is not where the worktree is. */
  predicate Halted(campaign: CampaignDocument, w: World) {
    w.disk.headSha != HeadOf(campaign.baseSha, w.branch)
  }

  /** What no run, and nothing between runs, ever undoes. */
  ghost predicate Continues(campaign: CampaignDocument, w: World, t: World) {
    && w.branch <= t.branch
    && w.log <= t.log
    && EffectiveSteps(campaign, w.log) <= EffectiveSteps(campaign, t.log)
    && KeepsAccepted(w.disk.steps, t.disk.steps)
    && (w.disk.cancelRequested ==> t.disk.cancelRequested)
    && w.orphans <= t.orphans
    && w.calls <= t.calls
    && w.disk.startTime == t.disk.startTime
    && (Halted(campaign, w) ==>
          Halted(campaign, t) && t.branch == w.branch && t.disk.headSha == w.disk.headSha
          && AcceptsNothing(w.disk.steps, t.disk.steps))
  }

  lemma ContinuesTransitive(campaign: CampaignDocument, a: World, b: World, c: World)
    requires Continues(campaign, a, b) && Continues(campaign, b, c)
    ensures Continues(campaign, a, c)
  {
    hide EffectiveSteps, Pristine;
    if Halted(campaign, a) {
      assert AcceptsNothing(a.disk.steps, c.disk.steps);
    }
  }

  lemma ContinuesReflexive(campaign: CampaignDocument, w: World)
    ensures Continues(campaign, w, w)
  {
  }

  /** A process that loads the status starts a run. */
  lemma RestartStep(campaign: CampaignDocument, start: World, w: World)
    requires Reached(campaign, start, w)
    ensures Reached(campaign, start, Restarted(w))
    ensures Reached(campaign, Restarted(w), Restarted(w))
    ensures Continues(campaign, w, Restarted(w))
    ensures Halted(campaign, w) ==> Frozen(campaign, Restarted(w))
  {
    RestartKeepsInv(campaign, w);
    ExtendsReflexive(campaign, Restarted(w));
    ContinuesReflexive(campaign, w);
    hide Inv, EffectiveSteps, AcceptedTags, IsAccepted;
    assert Extends(campaign, w, Restarted(w));
    ExtendsTransitive(campaign, start, w, Restarted(w));
  }

  /** What a run that started frozen reaches, it reaches without a commit. */
  lemma RunContinues(campaign: CampaignDocument, start: World, w: World)
    requires Extends(campaign, start, w) && (Halted(campaign, start) ==> Frozen(campaign, start))
    ensures Continues(campaign, start, w)
  {
    hide EffectiveSteps, IsAccepted;
  }

  /** `resume` forgets a pause before it saves. */
  lemma UnpauseStep(campaign: CampaignDocument, start: World, w: World)
    requires Reached(campaign, start, w)
    ensures Reached(campaign, start, w.(memory := w.memory.(pauseRequested := false)))
  {
    UnpauseKeepsInv(campaign, w);
    ExtendsTransitive(campaign, start, w, w.(memory := w.memory.(pauseRequested := false)));
  }

  lemma UnpauseKeepsInv(campaign: CampaignDocument, w: World)
    requires Inv(campaign, w)
    ensures Inv(campaign, w.(memory := w.memory.(pauseRequested := false)))
    ensures Extends(campaign, w, w.(memory := w.memory.(pauseRequested := false)))
  {
    hide EffectiveSteps, Lawful, BranchSound, DistinctCommits, StepsPermitted, Durable, AcceptedTags, Embeds;
  }

  /** The record a run works on next is the one of the next effective step. */
  lemma RecordOf(campaign: CampaignDocument, start: World, w: World, i: nat)
    requires Reached(campaign, start, w) && i < |w.memory.steps|
    ensures i < |EffectiveSteps(campaign, w.log)|
    ensures w.memory.steps[i].stepId == EffectiveSteps(campaign, w.log)[i].id
    ensures w.memory.steps[i].kind == EffectiveSteps(campaign, w.log)[i].kind
  {
    hide EffectiveSteps, Lawful, BranchSound, DistinctCommits, StepsPermitted, Accounted;
    hide FlagsSound, HeadsSound, Extends, Agrees;
  }

  lemma RecordIndex(campaign: CampaignDocument, start: World, w: World, i: nat, j: nat)
    requires Reached(campaign, start, w) && j < |w.memory.steps| && i < |EffectiveSteps(campaign, w.log)|
    requires w.memory.steps[j].stepId == EffectiveSteps(campaign, w.log)[i].id
    ensures i == j
  {
    hide EffectiveSteps, Lawful, BranchSound, DistinctCommits, StepsPermitted, Accounted;
    hide FlagsSound, HeadsSound, Extends, Agrees;
  }

  // ---------------------------------------------------------------- the beginning

  /** The status that `start` writes. */
  function FirstStatus(campaign: CampaignDocument, now: nat): CampaignStatus {
    CampaignStatus(
      campaign.baseSha, Running, Activity(None, 0, None, Started, now, now), false, false,
      now, None, campaign.limits.maxRuntimeSeconds,
      PendingSteps(campaign.steps), [], None, None, None, None)
  }

  lemma FirstDurable(campaign: CampaignDocument, policy: Policy, now: nat)
    requires ValidCampaign(campaign, policy) && Distinct(DocumentIds(campaign.steps))
    ensures Durable(campaign, [], FirstStatus(campaign, now))
    ensures StaleOf(FirstStatus(campaign, now), FirstStatus(campaign, now))
    ensures StepsPermitted(campaign, EffectiveSteps(campaign, [])) && EffectiveSteps(campaign, []) == campaign.steps
  {
    hide StepPermitted, ValidStep, CampaignPaths;
    var first := FirstStatus(campaign, now);
    assert DistinctSteps(first.steps) by {
      forall i, j | 0 <= i < j < |first.steps|
        ensures first.steps[i].stepId != first.steps[j].stepId
      {
        assert DocumentIds(campaign.steps)[i] != DocumentIds(campaign.steps)[j];
      }
    }
  }

  /** The same for the steps of a new campaign. */
  lemma FirstDurableIff(campaign: CampaignDocument, policy: Policy, now: nat)
    requires ValidCampaign(campaign, policy)
    ensures Durable(campaign, [], FirstStatus(campaign, now)) <==> Distinct(DocumentIds(campaign.steps))
  {
    if Distinct(DocumentIds(campaign.steps)) {
      FirstDurable(campaign, policy, now);
    } else {
      hide ValidCampaign, EffectiveSteps, RevisionsRecorded, Aligned;
      var i, j :| 0 <= i < j < |campaign.steps| && DocumentIds(campaign.steps)[i] == DocumentIds(campaign.steps)[j];
      var steps := FirstStatus(campaign, now).steps;
      assert steps[i].stepId == steps[j].stepId;
    }
  }

  lemma FirstLawful(campaign: CampaignDocument, now: nat)
    ensures var steps := FirstStatus(campaign, now).steps;
      && Lawful(campaign.limits.maxTotalAttempts, steps, [])
      && AcceptedTags(steps) == []
      && Agrees(steps, steps)
  {
    var steps := PendingSteps(campaign.steps);
    PristineKeepsHistory(campaign.limits.maxTotalAttempts, [], steps, []);
    assert [] + steps == steps;
  }

  lemma FirstAccounts(campaign: CampaignDocument, now: nat)
    requires AcceptedTags(FirstStatus(campaign, now).steps) == []
    ensures var first := FirstStatus(campaign, now);
      var w := World(first, [], [], first, false, 0, [], 0, 0);
      Accounted(w) && HeadOwned(campaign.baseSha, w) && BranchSound(campaign, campaign.steps, [])
  {
    hide AcceptedTags, Embeds;
  }

  lemma FirstFlags(campaign: CampaignDocument, now: nat)
    ensures var first := FirstStatus(campaign, now);
      && FlagsSound(World(first, [], [], first, false, 0, [], 0, 0))
      && HeadsSound(campaign.baseSha, [], first.headSha, first.headSha)
      && DistinctCommits(campaign.baseSha, [])
  {
  }

  lemma FirstScheduled(campaign: CampaignDocument, now: nat)
    requires campaign.limits.maxRuntimeSeconds > 0
    ensures var first := FirstStatus(campaign, now);
      Scheduled(campaign, World(first, [], [], first, false, 0, [], 0, 0))
  {
  }

  lemma FirstSettled(campaign: CampaignDocument, now: nat)
    ensures var first := FirstStatus(campaign, now);
      Settled(World(first, [], [], first, false, 0, [], 0, 0))
  {
  }

  lemma FirstWorld(campaign: CampaignDocument, policy: Policy, now: nat)
    requires ValidCampaign(campaign, policy) && Distinct(DocumentIds(campaign.steps))
    ensures var first := FirstStatus(campaign, now);
      Inv(campaign, World(first, [], [], first, false, 0, [], 0, 0))
  {
    assert campaign.limits.maxRuntimeSeconds > 0;
    FirstScheduled(campaign, now);
    FirstSettled(campaign, now);
    hide Settled, Scheduled, ValidCampaign, FlagsSound, HeadsSound, DistinctCommits, BranchSound;
    hide Durable, StaleOf, StepsPermitted;
    hide Lawful, Agrees, EffectiveSteps, AcceptedTags, Accounted, PendingSteps, HeadOwned, DocumentIds, Distinct;
    FirstDurable(campaign, policy, now);
    FirstLawful(campaign, now);
    FirstAccounts(campaign, now);
    FirstFlags(campaign, now);
  }
}
