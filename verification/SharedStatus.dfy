/**
 The durable status under every interleaving of its writers: any number of runners, each
 holding a snapshot that may be arbitrarily stale, operators, heartbeats and the container
 observer. Nothing here assumes a lease.
 */
module SharedStatus {
  import opened Wrappers
  import opened Paths
  import opened Campaign
  import opened StatusWriters

  type Policy = seq<string> -> bool

  /** The status file, the revision log, and the snapshot each runner holds. */
  datatype Shared = Shared(disk: CampaignStatus, log: seq<RevisionDocument>, snapshots: map<nat, CampaignStatus>)

  datatype Step =
    | Load(runner: nat)
    | Edit(runner: nat, snapshot: CampaignStatus)
    | ReadFlags(runner: nat)
    | Save(runner: nat, resume: bool)
    | Pause
    | Cancel(reason: Option<string>, now: nat)
    | Revise(revision: RevisionDocument, now: nat)
    | Beat(activity: Activity)
    | Container(container: Option<string>)

  // ---------------------------------------------------------------- what the disk always satisfies

  /** Status records and effective steps agree, position by position. */
  ghost predicate Aligned(campaign: CampaignDocument, log: seq<RevisionDocument>, steps: seq<StepStatus>) {
    var effective := EffectiveSteps(campaign, log);
    && |steps| == |effective|
    && forall i :: 0 <= i < |steps| ==> steps[i].stepId == effective[i].id && steps[i].kind == effective[i].kind
  }

  ghost predicate RevisionsRecorded(log: seq<RevisionDocument>, disk: CampaignStatus) {
    && |disk.revisions| == |log|
    && (forall i :: 0 <= i < |log| ==> disk.revisions[i].addedStepIds == DocumentIds(log[i].steps))
    && (forall i :: 0 <= i < |log| ==> log[i].steps != [])
    && (forall i, k :: 0 <= i < |log| && 0 <= k < |log[i].steps| ==> HasStep(disk.steps, log[i].steps[k].id))
    && DistinctRevisions(disk.revisions)
  }

  /** A requested cancellation shows in the state. */
  predicate CancelShows(disk: CampaignStatus) {
    disk.cancelRequested ==> disk.state == Cancelled || disk.state == Completed || disk.state == Expired
  }

  ghost predicate Durable(campaign: CampaignDocument, log: seq<RevisionDocument>, disk: CampaignStatus) {
    && Aligned(campaign, log, disk.steps)
    && DistinctSteps(disk.steps)
    && |disk.steps| <= campaign.limits.maxSteps
    && RevisionsRecorded(log, disk)
    && CancelShows(disk)
  }

  ghost predicate SharedInv(campaign: CampaignDocument, s: Shared) {
    && Durable(campaign, s.log, s.disk)
    && forall r :: r in s.snapshots ==> StaleOf(s.snapshots[r], s.disk)
  }

  // ---------------------------------------------------------------- steps

  /** A runner changes anything in its snapshot except the operator's cancel flag and the
      lists that only `revise` extends. */
  predicate LocalEdit(before: CampaignStatus, after: CampaignStatus) {
    && |after.steps| == |before.steps| && SameIds(after.steps, before.steps)
    && after.revisions == before.revisions
    && after.cancelRequested == before.cancelRequested
  }

  ghost predicate Enabled(campaign: CampaignDocument, s: Shared, step: Step) {
    match step
    case Edit(r, snapshot) => r in s.snapshots && LocalEdit(s.snapshots[r], snapshot)
    case ReadFlags(r) => r in s.snapshots
    case Save(r, _) => r in s.snapshots
    case Revise(revision, _) => Distinct(DocumentIds(revision.steps))
    case _ => true
  }

  ghost function Next(campaign: CampaignDocument, policy: Policy, s: Shared, step: Step): Shared
    requires Enabled(campaign, s, step)
  {
    match step
    case Load(r) => s.(snapshots := s.snapshots[r := s.disk])
    case Edit(r, snapshot) => s.(snapshots := s.snapshots[r := snapshot])
    case ReadFlags(r) =>
      s.(snapshots := s.snapshots[r := s.snapshots[r].(
        pauseRequested := s.disk.pauseRequested, cancelRequested := s.disk.cancelRequested)])
    case Save(r, resume) => s.(disk := Merged(s.disk, s.snapshots[r], resume))
    case Pause => s.(disk := PauseWrite(s.disk))
    case Cancel(reason, now) => s.(disk := CancelWrite(s.disk, reason, now))
    case Revise(revision, now) =>
      if CanRevise(campaign, s.disk, revision, policy) then
        s.(disk := ReviseWrite(s.disk, revision, now), log := s.log + [revision])
      else
        s
    case Beat(activity) => s.(disk := BeatWrite(s.disk, activity))
    case Container(container) => s.(disk := ContainerWrite(s.disk, container))
  }

  // ---------------------------------------------------------------- one step

  lemma EffectiveAppend(campaign: CampaignDocument, log: seq<RevisionDocument>, revision: RevisionDocument)
    ensures EffectiveSteps(campaign, log + [revision]) == EffectiveSteps(campaign, log) + revision.steps
  {
    assert (log + [revision])[..|log|] == log;
  }

  /** Saving a stale snapshot changes neither the ids on disk nor the revisions. */
  lemma StaleSaveAppendsNothing(disk: CampaignStatus, snapshot: CampaignStatus, resume: bool)
    requires StaleOf(snapshot, disk) && DistinctSteps(disk.steps) && DistinctRevisions(disk.revisions)
    ensures var saved := Merged(disk, snapshot, resume);
      && saved.revisions == disk.revisions
      && saved.steps == snapshot.steps + disk.steps[|snapshot.steps|..]
      && SameIds(saved.steps, disk.steps) && |saved.steps| == |disk.steps|
  {
    hide SameIds, DistinctSteps, HasStep;
    MissingSteps(snapshot.steps, disk.steps);
    MissingRevisions(snapshot.revisions, disk.revisions, |snapshot.revisions|);
  }

  lemma SameIdsKeepsRecorded(log: seq<RevisionDocument>, before: CampaignStatus, after: CampaignStatus)
    requires RevisionsRecorded(log, before) && after.revisions == before.revisions
    requires SameIds(before.steps, after.steps)
    ensures RevisionsRecorded(log, after)
  {
    forall i, k | 0 <= i < |log| && 0 <= k < |log[i].steps|
      ensures HasStep(after.steps, log[i].steps[k].id)
    {
      var j :| 0 <= j < |before.steps| && before.steps[j].stepId == log[i].steps[k].id;
      assert after.steps[j].stepId == log[i].steps[k].id;
    }
  }

  /** `revise` keeps records and effective steps in step. */
  lemma ReviseKeepsDurable(campaign: CampaignDocument, policy: Policy, log: seq<RevisionDocument>,
                           disk: CampaignStatus, revision: RevisionDocument, now: nat)
    requires Durable(campaign, log, disk)
    requires CanRevise(campaign, disk, revision, policy) && Distinct(DocumentIds(revision.steps))
    ensures Durable(campaign, log + [revision], ReviseWrite(disk, revision, now))
  {
    assert |disk.steps| + |revision.steps| <= campaign.limits.maxSteps && CancelShows(ReviseWrite(disk, revision, now));
    hide EffectiveSteps, CanRevise, DistinctSteps, RevisionsRecorded, Aligned;
    ReviseKeepsAligned(campaign, log, disk, revision, now);
    ReviseKeepsDistinct(campaign, policy, disk, revision, now);
    ReviseKeepsRecorded(campaign, policy, log, disk, revision, now);
  }

  /** The source accepts a revision that repeats an id among its own steps; the records stay sound
      exactly if it does not. */
  lemma ReviseKeepsDurableIff(campaign: CampaignDocument, policy: Policy, log: seq<RevisionDocument>,
                              disk: CampaignStatus, revision: RevisionDocument, now: nat)
    requires Durable(campaign, log, disk) && CanRevise(campaign, disk, revision, policy)
    ensures Durable(campaign, log + [revision], ReviseWrite(disk, revision, now)) <==>
      Distinct(DocumentIds(revision.steps))
  {
    hide EffectiveSteps, CanRevise, RevisionsRecorded, Aligned, DistinctSteps, Distinct, ReviseWrite, DocumentIds;
    if Distinct(DocumentIds(revision.steps)) {
      ReviseKeepsDurable(campaign, policy, log, disk, revision, now);
    } else {
      RepeatedIdShows(disk, revision, now);
    }
  }

  lemma RepeatedIdShows(disk: CampaignStatus, revision: RevisionDocument, now: nat)
    requires !Distinct(DocumentIds(revision.steps))
    ensures !DistinctSteps(ReviseWrite(disk, revision, now).steps)
  {
    var i, j :| 0 <= i < j < |revision.steps| && DocumentIds(revision.steps)[i] == DocumentIds(revision.steps)[j];
    var steps := ReviseWrite(disk, revision, now).steps;
    assert steps[|disk.steps| + i].stepId == steps[|disk.steps| + j].stepId;
  }

  lemma ReviseKeepsAligned(campaign: CampaignDocument, log: seq<RevisionDocument>, disk: CampaignStatus,
                           revision: RevisionDocument, now: nat)
    requires Aligned(campaign, log, disk.steps)
    ensures Aligned(campaign, log + [revision], ReviseWrite(disk, revision, now).steps)
  {
    EffectiveAppend(campaign, log, revision);
    hide EffectiveSteps;
  }

  lemma ReviseKeepsDistinct(campaign: CampaignDocument, policy: Policy, disk: CampaignStatus,
                            revision: RevisionDocument, now: nat)
    requires DistinctSteps(disk.steps)
    requires CanRevise(campaign, disk, revision, policy) && Distinct(DocumentIds(revision.steps))
    ensures DistinctSteps(ReviseWrite(disk, revision, now).steps)
  {
    hide ValidStep, StepPermitted;
    var steps := ReviseWrite(disk, revision, now).steps;
    var n := |disk.steps|;
    forall i, j | 0 <= i < j < |steps|
      ensures steps[i].stepId != steps[j].stepId
    {
      if i < n <= j {
        assert !HasStep(disk.steps, revision.steps[j - n].id);
      } else if n <= i {
        assert DocumentIds(revision.steps)[i - n] != DocumentIds(revision.steps)[j - n];
      }
    }
  }

  lemma ReviseKeepsRecorded(campaign: CampaignDocument, policy: Policy, log: seq<RevisionDocument>,
                            disk: CampaignStatus, revision: RevisionDocument, now: nat)
    requires RevisionsRecorded(log, disk) && CanRevise(campaign, disk, revision, policy)
    ensures RevisionsRecorded(log + [revision], ReviseWrite(disk, revision, now))
  {
    hide ValidStep, StepPermitted;
    var after := ReviseWrite(disk, revision, now);
    var all := log + [revision];
    var added := DocumentIds(revision.steps);
    assert !HasStep(disk.steps, revision.steps[0].id);
    forall i | 0 <= i < |log|
      ensures disk.revisions[i] != after.revisions[|log|]
    {
      assert HasStep(disk.steps, log[i].steps[0].id);
      assert disk.revisions[i].addedStepIds[0] == log[i].steps[0].id;
    }
    forall i, k | 0 <= i < |all| && 0 <= k < |all[i].steps|
      ensures HasStep(after.steps, all[i].steps[k].id)
    {
      if i < |log| {
        var j :| 0 <= j < |disk.steps| && disk.steps[j].stepId == log[i].steps[k].id;
        assert after.steps[j].stepId == all[i].steps[k].id;
      } else {
        assert after.steps[|disk.steps| + k] == PendingStep(revision.steps[k]);
      }
    }
  }

  /** Writers that leave the list of step ids alone keep the disk invariant. */
  lemma SameIdsKeepsDurable(campaign: CampaignDocument, log: seq<RevisionDocument>,
                            before: CampaignStatus, after: CampaignStatus)
    requires Durable(campaign, log, before)
    requires SameIds(after.steps, before.steps) && |after.steps| == |before.steps|
    requires after.revisions == before.revisions && CancelShows(after)
    ensures Durable(campaign, log, after)
  {
    hide EffectiveSteps, DistinctRevisions, CancelShows, HasStep;
    SameIdsKeepsRecorded(log, before, after);
    assert DistinctSteps(after.steps) by {
      assert forall i :: 0 <= i < |after.steps| ==> after.steps[i].stepId == before.steps[i].stepId;
    }
  }

  /** A snapshot stays stale in the same sense whatever `revise` appends. */
  lemma StaleThroughAppend(snapshot: CampaignStatus, before: CampaignStatus, after: CampaignStatus)
    requires StaleOf(snapshot, before)
    requires before.revisions <= after.revisions && SameIds(before.steps, after.steps)
    requires before.cancelRequested ==> after.cancelRequested
    ensures StaleOf(snapshot, after)
  {
  }

  ghost predicate DiskGrows(before: CampaignStatus, after: CampaignStatus) {
    && before.revisions <= after.revisions
    && SameIds(before.steps, after.steps)
    && (before.cancelRequested ==> after.cancelRequested)
  }

  lemma StepDisk(campaign: CampaignDocument, policy: Policy, s: Shared, step: Step)
    requires SharedInv(campaign, s) && Enabled(campaign, s, step)
    ensures var t := Next(campaign, policy, s, step);
      Durable(campaign, t.log, t.disk) && DiskGrows(s.disk, t.disk)
  {
    hide EffectiveSteps, CanRevise, DistinctRevisions, HasStep, DistinctSteps;
    match step {
      case Save(r, resume) =>
        StaleSaveAppendsNothing(s.disk, s.snapshots[r], resume);
        SameIdsKeepsDurable(campaign, s.log, s.disk, Merged(s.disk, s.snapshots[r], resume));
      case Revise(revision, now) =>
        if CanRevise(campaign, s.disk, revision, policy) {
          ReviseKeepsDurable(campaign, policy, s.log, s.disk, revision, now);
        }
      case Pause => SameIdsKeepsDurable(campaign, s.log, s.disk, PauseWrite(s.disk));
      case Cancel(reason, now) => SameIdsKeepsDurable(campaign, s.log, s.disk, CancelWrite(s.disk, reason, now));
      case Beat(activity) => SameIdsKeepsDurable(campaign, s.log, s.disk, BeatWrite(s.disk, activity));
      case Container(container) => SameIdsKeepsDurable(campaign, s.log, s.disk, ContainerWrite(s.disk, container));
      case Load(_) =>
      case Edit(_, _) =>
      case ReadFlags(_) =>
    }
  }

  lemma StepKeepsInv(campaign: CampaignDocument, policy: Policy, s: Shared, step: Step)
    requires SharedInv(campaign, s) && Enabled(campaign, s, step)
    ensures SharedInv(campaign, Next(campaign, policy, s, step))
  {
    var t := Next(campaign, policy, s, step);
    StepDisk(campaign, policy, s, step);
    hide Durable, CanRevise, ReviseWrite, Merged;
    forall r | r in t.snapshots
      ensures StaleOf(t.snapshots[r], t.disk)
    {
      match step {
        case Load(runner) =>
          if r != runner {
            StaleThroughAppend(s.snapshots[r], s.disk, t.disk);
          }
        case Edit(runner, snapshot) =>
          assert StaleOf(s.snapshots[r], s.disk);
        case ReadFlags(runner) =>
          assert StaleOf(s.snapshots[r], s.disk);
        case _ =>
          StaleThroughAppend(s.snapshots[r], s.disk, t.disk);
      }
    }
  }

  // ---------------------------------------------------------------- whole runs

  ghost predicate Runs(campaign: CampaignDocument, policy: Policy, s: Shared, steps: seq<Step>)
    decreases |steps|
  {
    steps == [] || (
      Enabled(campaign, s, steps[0]) &&
      Runs(campaign, policy, Next(campaign, policy, s, steps[0]), steps[1..]))
  }

  ghost function After(campaign: CampaignDocument, policy: Policy, s: Shared, steps: seq<Step>): Shared
    requires Runs(campaign, policy, s, steps)
    decreases |steps|
  {
    if steps == [] then s else After(campaign, policy, Next(campaign, policy, s, steps[0]), steps[1..])
  }

  /** What `start` writes: pending records for the campaign's own steps. */
  ghost predicate Initial(campaign: CampaignDocument, s: Shared) {
    && s.log == [] && s.snapshots == map[]
    && s.disk.steps == PendingSteps(campaign.steps) && s.disk.revisions == []
    && !s.disk.cancelRequested
    && |campaign.steps| <= campaign.limits.maxSteps && Distinct(DocumentIds(campaign.steps))
  }

  lemma InitialInv(campaign: CampaignDocument, s: Shared)
    requires Initial(campaign, s)
    ensures SharedInv(campaign, s)
  {
    forall i, j | 0 <= i < j < |s.disk.steps|
      ensures s.disk.steps[i].stepId != s.disk.steps[j].stepId
    {
      assert DocumentIds(campaign.steps)[i] != DocumentIds(campaign.steps)[j];
    }
  }

  lemma {:induction false} RunKeepsInv(campaign: CampaignDocument, policy: Policy, s: Shared, steps: seq<Step>)
    requires SharedInv(campaign, s) && Runs(campaign, policy, s, steps)
    ensures SharedInv(campaign, After(campaign, policy, s, steps))
    decreases |steps|
  {
    hide SharedInv, Next, Enabled;
    if steps != [] {
      StepKeepsInv(campaign, policy, s, steps[0]);
      RunKeepsInv(campaign, policy, Next(campaign, policy, s, steps[0]), steps[1..]);
    }
  }

  /** In every reachable state, however stale the snapshots: the records on disk are exactly the
      effective steps, there are at most `max_steps`, and a save adds and reorders nothing. */
  lemma DiskTracksRevisions(campaign: CampaignDocument, policy: Policy, s: Shared, steps: seq<Step>,
                            runner: nat, resume: bool)
    requires Initial(campaign, s) && Runs(campaign, policy, s, steps)
    requires runner in After(campaign, policy, s, steps).snapshots
    ensures var t := After(campaign, policy, s, steps);
      var saved := Merged(t.disk, t.snapshots[runner], resume);
      && StepIds(t.disk.steps) == DocumentIds(EffectiveSteps(campaign, t.log))
      && |t.disk.steps| <= campaign.limits.maxSteps
      && saved.revisions == t.disk.revisions
      && StepIds(saved.steps) == StepIds(t.disk.steps)
  {
    hide Merged, After, Runs, RevisionsRecorded, EffectiveSteps;
    InitialInv(campaign, s);
    RunKeepsInv(campaign, policy, s, steps);
    var t := After(campaign, policy, s, steps);
    assert StaleOf(t.snapshots[runner], t.disk);
    assert DistinctRevisions(t.disk.revisions) by { RecordedAreDistinct(t.log, t.disk); }
    StaleSaveAppendsNothing(t.disk, t.snapshots[runner], resume);
  }

  lemma RecordedAreDistinct(log: seq<RevisionDocument>, disk: CampaignStatus)
    requires RevisionsRecorded(log, disk)
    ensures DistinctRevisions(disk.revisions)
  {
  }

  /** `revise` appends to the log before it saves: the two agree afterwards exactly when the save lands. */
  lemma TornRevision(campaign: CampaignDocument, policy: Policy, log: seq<RevisionDocument>,
                     disk: CampaignStatus, revision: RevisionDocument, now: nat, saved: bool)
    requires Durable(campaign, log, disk) && CanRevise(campaign, disk, revision, policy)
    requires Distinct(DocumentIds(revision.steps))
    ensures var after := if saved then ReviseWrite(disk, revision, now) else disk;
      Aligned(campaign, log + [revision], after.steps) <==> saved
  {
    ReviseKeepsDurable(campaign, policy, log, disk, revision, now);
    EffectiveAppend(campaign, log, revision);
  }

  // ---------------------------------------------------------------- cancellation is a latch

  /** After a cancellation is durable, a step leaves the state or sets it to cancelled, a save by
      any runner sets it to cancelled, and neither the end time nor the reason moves again. */
  lemma CancelHolds(campaign: CampaignDocument, policy: Policy, s: Shared, step: Step)
    requires s.disk.cancelRequested && CancelShows(s.disk) && Enabled(campaign, s, step)
    ensures var t := Next(campaign, policy, s, step).disk;
      && t.cancelRequested
      && (t.state == s.disk.state || t.state == Cancelled)
      && (step.Save? || s.disk.state == Cancelled ==> t.state == Cancelled)
      && t.endTime == s.disk.endTime && t.blockedReason == s.disk.blockedReason
      && (!step.Cancel? ==> t.errorMessage == s.disk.errorMessage)
  {
    hide CanRevise, AddMissingSteps, AddMissingRevisions;
  }

  lemma {:induction false} CancelIsALatch(campaign: CampaignDocument, policy: Policy, s: Shared, steps: seq<Step>)
    requires s.disk.cancelRequested && CancelShows(s.disk) && Runs(campaign, policy, s, steps)
    ensures var t := After(campaign, policy, s, steps).disk;
      && t.cancelRequested
      && (t.state == s.disk.state || t.state == Cancelled)
      && (s.disk.state == Cancelled || (exists i :: 0 <= i < |steps| && steps[i].Save?) ==> t.state == Cancelled)
      && t.endTime == s.disk.endTime && t.blockedReason == s.disk.blockedReason
    decreases |steps|
  {
    if steps != [] {
      var next := Next(campaign, policy, s, steps[0]);
      CancelHolds(campaign, policy, s, steps[0]);
      hide Next, Enabled;
      CancelIsALatch(campaign, policy, next, steps[1..]);
      if i :| 0 <= i < |steps| && steps[i].Save? {
        if i > 0 {
          assert steps[1..][i - 1].Save?;
        }
      }
    }
  }

  // ---------------------------------------------------------------- pauses

  /** A resumed save and a cancellation are what withdraws a pause. */
  predicate Withdraws(step: Step) {
    (step.Save? && step.resume) || step.Cancel?
  }

  /** An operator, or a runner whose snapshot still carries the request, asks for a pause. */
  predicate Asks(s: Shared, step: Step) {
    step.Pause? || (step.Save? && !step.resume && step.runner in s.snapshots && s.snapshots[step.runner].pauseRequested)
  }

  /** After a step a pause is requested exactly if it asks for one, or one was requested and it does
      not withdraw it. */
  lemma PauseIff(campaign: CampaignDocument, policy: Policy, s: Shared, step: Step)
    requires Enabled(campaign, s, step)
    ensures Next(campaign, policy, s, step).disk.pauseRequested <==>
      Asks(s, step) || (s.disk.pauseRequested && !Withdraws(step))
  {
    hide CanRevise, AddMissingSteps, AddMissingRevisions;
  }

  ghost predicate StaysPaused(campaign: CampaignDocument, policy: Policy, s: Shared, steps: seq<Step>)
    requires Runs(campaign, policy, s, steps)
    decreases |steps|
  {
    steps == [] || (
      Next(campaign, policy, s, steps[0]).disk.pauseRequested &&
      StaysPaused(campaign, policy, Next(campaign, policy, s, steps[0]), steps[1..]))
  }

  /** Over every interleaving a pause stands throughout exactly if there is no resumed save and no
      cancellation, and it is gone right behind either. */
  lemma {:induction false} PauseStandsIff(campaign: CampaignDocument, policy: Policy, s: Shared, steps: seq<Step>)
    requires s.disk.pauseRequested && Runs(campaign, policy, s, steps)
    ensures StaysPaused(campaign, policy, s, steps) <==> forall i :: 0 <= i < |steps| ==> !Withdraws(steps[i])
    decreases |steps|
  {
    if steps != [] {
      PauseIff(campaign, policy, s, steps[0]);
      assert Withdraws(steps[0]) ==> !Asks(s, steps[0]);
      hide Next, Enabled, Withdraws, Asks;
      var next := Next(campaign, policy, s, steps[0]);
      if next.disk.pauseRequested {
        PauseStandsIff(campaign, policy, next, steps[1..]);
        assert forall i :: 0 < i < |steps| ==> steps[i] == steps[1..][i - 1];
      }
    }
  }

  // ---------------------------------------------------------------- what a save publishes

  /** Without a cancellation on disk a save publishes the snapshot, but for the operator's flags and
      what revisions have added since; with one it keeps the cancellation's own account of the end. */
  lemma SavePublishes(disk: CampaignStatus, snapshot: CampaignStatus, resume: bool)
    requires StaleOf(snapshot, disk) && DistinctSteps(disk.steps) && DistinctRevisions(disk.revisions)
    ensures var saved := Merged(disk, snapshot, resume);
      && snapshot.steps <= saved.steps
      && saved.headSha == snapshot.headSha && saved.activity == snapshot.activity
      && saved.startTime == snapshot.startTime && saved.remainingSeconds == snapshot.remainingSeconds
      && saved.leaseId == snapshot.leaseId && saved.containerId == snapshot.containerId
      && (!disk.cancelRequested ==>
          && saved.state == snapshot.state && saved.endTime == snapshot.endTime
          && saved.blockedReason == snapshot.blockedReason && saved.errorMessage == snapshot.errorMessage)
      && (disk.cancelRequested ==> saved.state == Cancelled && saved.endTime == disk.endTime)
  {
    StaleSaveAppendsNothing(disk, snapshot, resume);
    hide AddMissingSteps, AddMissingRevisions, DistinctSteps, SameIds;
  }

  // ---------------------------------------------------------------- revisions, heartbeats, containers

  /** The log grows only under a status that is paused or blocked, by steps with ids of their own and
      within the limit. */
  lemma LogGrowsOnlyWhenStopped(campaign: CampaignDocument, policy: Policy, s: Shared, step: Step)
    requires Enabled(campaign, s, step) && Next(campaign, policy, s, step).log != s.log
    ensures step.Revise? && (s.disk.state == Paused || s.disk.state == Blocked)
    ensures step.revision.steps != [] && Trim(step.revision.instruction) != ""
    ensures |s.disk.steps| + |step.revision.steps| <= campaign.limits.maxSteps
    ensures forall i :: 0 <= i < |step.revision.steps| ==>
      && !HasStep(s.disk.steps, step.revision.steps[i].id)
      && StepPermitted(step.revision.steps[i], campaign.permittedPaths)
      && ValidStep(step.revision.steps[i], policy)
    ensures var (before, after) := (s.disk.revisions, Next(campaign, policy, s, step).disk.revisions);
      && |after| == |before| + 1 && after[..|before|] == before
      && after[|before|].instruction == step.revision.instruction && after[|before|].recordedAt == step.now
  {
    hide StepPermitted, ValidStep, HasStep, Trim;
  }

  /** A heartbeat shows on a running campaign only, and nowhere but in its activity; a container
      callback changes the container alone. */
  lemma SideWritesStayAside(disk: CampaignStatus, beat: Activity, container: Option<string>)
    ensures disk.state != Running ==> BeatWrite(disk, beat) == disk
    ensures BeatWrite(disk, beat) == disk.(activity := BeatWrite(disk, beat).activity)
    ensures disk.state == Running ==>
      var shown := BeatWrite(disk, beat).activity;
      && shown.lastHeartbeat == beat.lastHeartbeat && shown.action == beat.action
      && (beat.stepId.Some? ==> shown.stepId == beat.stepId) && (beat.worker.Some? ==> shown.worker == beat.worker)
      && (beat.stepId.None? ==> shown.stepId == disk.activity.stepId)
      && (beat.worker.None? ==> shown.worker == disk.activity.worker)
      && shown.attempt == disk.activity.attempt && shown.lastProgress == disk.activity.lastProgress
    ensures ContainerWrite(disk, container) == disk.(containerId := ContainerWrite(disk, container).containerId)
    ensures ContainerWrite(disk, container).containerId == container
  {
  }

  /** A cancellation ends what has not ended, and leaves the account of what has. */
  lemma CancelMeans(disk: CampaignStatus, reason: Option<string>, now: nat)
    ensures var cancelled := CancelWrite(disk, reason, now);
      && cancelled.cancelRequested && !cancelled.pauseRequested
      && (disk.state == Completed || disk.state == Expired || disk.state == Cancelled ==>
          cancelled.state == disk.state && cancelled.endTime == disk.endTime)
      && (disk.state != Completed && disk.state != Expired && disk.state != Cancelled ==>
          && cancelled.state == Cancelled && cancelled.endTime == Some(now)
          && cancelled.blockedReason == Some(OperatorCancelled))
      && cancelled.errorMessage == (if reason.Some? then reason else disk.errorMessage)
      && cancelled.steps == disk.steps && cancelled.revisions == disk.revisions && cancelled.headSha == disk.headSha
  {
  }
}
