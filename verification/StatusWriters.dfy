/**
 Every writer of the durable campaign status, as the source has them: runner saves that
 merge a possibly stale snapshot, operator commands, the background heartbeat and the
 container observer. Each runs under the campaign lock, so each is one step.
 */
module StatusWriters {
  import opened Wrappers
  import opened Campaign

  // ---------------------------------------------------------------- merging a runner snapshot

  function AddMissingRevisions(kept: seq<RevisionRecord>, disk: seq<RevisionRecord>): seq<RevisionRecord>
    decreases disk
  {
    if disk == [] then
      kept
    else
      AddMissingRevisions(if disk[0] in kept then kept else kept + [disk[0]], disk[1..])
  }

  function AddMissingSteps(kept: seq<StepStatus>, disk: seq<StepStatus>): seq<StepStatus>
    decreases disk
  {
    if disk == [] then
      kept
    else
      AddMissingSteps(if HasStep(kept, disk[0].stepId) then kept else kept + [disk[0]], disk[1..])
  }

  /** What a save of `proposed` leaves on a disk that holds `disk`. */
  function Merged(disk: CampaignStatus, proposed: CampaignStatus, resume: bool): CampaignStatus {
    var merged := proposed.(
      cancelRequested := proposed.cancelRequested || disk.cancelRequested,
      pauseRequested := if resume then false else proposed.pauseRequested || disk.pauseRequested,
      revisions := AddMissingRevisions(proposed.revisions, disk.revisions),
      steps := AddMissingSteps(proposed.steps, disk.steps));
    if disk.cancelRequested then
      merged.(state := Cancelled, endTime := disk.endTime,
        blockedReason := disk.blockedReason, errorMessage := disk.errorMessage)
    else
      merged
  }

  /** `merge_runner_state_unlocked`, loops and all. */
  method MergeRunnerState(disk: CampaignStatus, proposed: CampaignStatus, resume: bool)
    returns (merged: CampaignStatus)
    ensures merged == Merged(disk, proposed, resume)
    ensures merged.pauseRequested <==> !resume && (proposed.pauseRequested || disk.pauseRequested)
    ensures merged.cancelRequested <==> proposed.cancelRequested || disk.cancelRequested
    ensures merged.headSha == proposed.headSha && merged.startTime == proposed.startTime
    ensures merged.state == if disk.cancelRequested then Cancelled else proposed.state
    ensures merged.leaseId == proposed.leaseId
    ensures !disk.cancelRequested ==> merged.blockedReason == proposed.blockedReason
  {
    merged := proposed;
    merged := merged.(cancelRequested := merged.cancelRequested || disk.cancelRequested);
    merged := merged.(pauseRequested := if resume then false else proposed.pauseRequested || disk.pauseRequested);
    var revisions := proposed.revisions;
    for i := 0 to |disk.revisions|
      invariant AddMissingRevisions(proposed.revisions, disk.revisions)
             == AddMissingRevisions(revisions, disk.revisions[i..])
    {
      assert disk.revisions[i..][1..] == disk.revisions[i + 1..];
      if disk.revisions[i] !in revisions {
        revisions := revisions + [disk.revisions[i]];
      }
    }
    assert disk.revisions[|disk.revisions|..] == [];
    var steps := proposed.steps;
    for i := 0 to |disk.steps|
      invariant AddMissingSteps(proposed.steps, disk.steps) == AddMissingSteps(steps, disk.steps[i..])
    {
      assert disk.steps[i..][1..] == disk.steps[i + 1..];
      if !HasStep(steps, disk.steps[i].stepId) {
        steps := steps + [disk.steps[i]];
      }
    }
    assert disk.steps[|disk.steps|..] == [];
    merged := merged.(revisions := revisions, steps := steps);
    if disk.cancelRequested {
      merged := merged.(state := Cancelled, endTime := disk.endTime);
      merged := merged.(blockedReason := disk.blockedReason, errorMessage := disk.errorMessage);
    }
  }

  // ---------------------------------------------------------------- operator and background writers

  function PauseWrite(disk: CampaignStatus): CampaignStatus {
    disk.(pauseRequested := true)
  }

  function CancelWrite(disk: CampaignStatus, reason: Option<string>, now: nat): CampaignStatus {
    var requested := disk.(cancelRequested := true, pauseRequested := false,
      errorMessage := if reason.Some? then reason else disk.errorMessage);
    if disk.state == Completed || disk.state == Cancelled || disk.state == Expired then
      requested
    else
      requested.(state := Cancelled, endTime := Some(now), blockedReason := Some(OperatorCancelled))
  }

  function ReviseWrite(disk: CampaignStatus, revision: RevisionDocument, now: nat): CampaignStatus {
    disk.(steps := disk.steps + PendingSteps(revision.steps),
      revisions := disk.revisions + [RevisionRecord(revision.instruction, DocumentIds(revision.steps), now)])
  }

  /** The background heartbeat refuses to touch a campaign that is not running. */
  function BeatWrite(disk: CampaignStatus, beat: Activity): CampaignStatus {
    if disk.state != Running then
      disk
    else
      disk.(activity := disk.activity.(
        lastHeartbeat := beat.lastHeartbeat, action := beat.action,
        stepId := if beat.stepId.Some? then beat.stepId else disk.activity.stepId,
        worker := if beat.worker.Some? then beat.worker else disk.activity.worker))
  }

  function ContainerWrite(disk: CampaignStatus, container: Option<string>): CampaignStatus {
    disk.(containerId := container)
  }

  // ---------------------------------------------------------------- stale snapshots

  /** A snapshot some runner may still hold: it lacks at most what `revise` has appended since. */
  ghost predicate StaleOf(snapshot: CampaignStatus, disk: CampaignStatus) {
    && SameIds(snapshot.steps, disk.steps)
    && snapshot.revisions <= disk.revisions
    && (snapshot.cancelRequested ==> disk.cancelRequested)
  }

  lemma {:induction false} MissingRevisions(kept: seq<RevisionRecord>, disk: seq<RevisionRecord>, n: nat)
    requires n <= |disk| && kept == disk[..n]
    requires DistinctRevisions(disk)
    ensures AddMissingRevisions(kept, disk) == disk
  {
    RevisionsFrom(kept, disk, n, 0);
    assert disk[0..] == disk;
  }

  lemma {:induction false} RevisionsFrom(kept: seq<RevisionRecord>, disk: seq<RevisionRecord>, n: nat, i: nat)
    requires n <= |disk| && i <= |disk|
    requires kept == disk[..if i <= n then n else i]
    requires DistinctRevisions(disk)
    ensures AddMissingRevisions(kept, disk[i..]) == disk
    decreases |disk| - i
  {
    if i == |disk| {
      assert kept == disk;
    } else {
      assert disk[i..][1..] == disk[i + 1..];
      if i < n {
        assert kept[i] == disk[i];
        RevisionsFrom(kept, disk, n, i + 1);
      } else {
        assert disk[i] !in kept;
        assert kept + [disk[i]] == disk[..i + 1];
        RevisionsFrom(kept + [disk[i]], disk, n, i + 1);
      }
    }
  }

  /** `kept` carries the ids and kinds of the first records of `disk`. */
  predicate SameIds(kept: seq<StepStatus>, disk: seq<StepStatus>) {
    |kept| <= |disk| &&
    forall k :: 0 <= k < |kept| ==> kept[k].stepId == disk[k].stepId && kept[k].kind == disk[k].kind
  }

  ghost predicate DistinctSteps(disk: seq<StepStatus>) {
    forall i, j :: 0 <= i < j < |disk| ==> disk[i].stepId != disk[j].stepId
  }

  lemma Known(kept: seq<StepStatus>, disk: seq<StepStatus>, i: nat)
    requires SameIds(kept, disk) && DistinctSteps(disk) && i < |disk|
    ensures HasStep(kept, disk[i].stepId) <==> i < |kept|
  {
    if i < |kept| {
      assert kept[i].stepId == disk[i].stepId;
    }
  }

  lemma SameIdsGrow(kept: seq<StepStatus>, disk: seq<StepStatus>)
    requires SameIds(kept, disk) && |kept| < |disk|
    ensures SameIds(kept + [disk[|kept|]], disk)
    ensures kept + [disk[|kept|]] + disk[|kept| + 1..] == kept + disk[|kept|..]
  {
  }

  lemma {:induction false} StepsFrom(kept: seq<StepStatus>, disk: seq<StepStatus>, n: nat, i: nat)
    requires |kept| == (if i <= n then n else i) && SameIds(kept, disk) && DistinctSteps(disk)
    ensures AddMissingSteps(kept, disk[i..]) == kept + disk[|kept|..]
    decreases |disk| - i
  {
    hide SameIds, DistinctSteps, HasStep;
    assert |kept| <= |disk| by { Shorter(kept, disk); }
    if i >= |disk| {
      assert disk[i..] == [];
      assert kept + disk[|kept|..] == kept;
    } else {
      assert disk[i..][1..] == disk[i + 1..];
      Known(kept, disk, i);
      if i < n {
        StepsFrom(kept, disk, n, i + 1);
      } else {
        SameIdsGrow(kept, disk);
        StepsFrom(kept + [disk[i]], disk, n, i + 1);
      }
    }
  }

  lemma Shorter(kept: seq<StepStatus>, disk: seq<StepStatus>)
    requires SameIds(kept, disk)
    ensures |kept| <= |disk|
  {
  }

  /** Merging steps keeps the proposed records and appends exactly the disk's newer ones. */
  lemma MissingSteps(kept: seq<StepStatus>, disk: seq<StepStatus>)
    requires SameIds(kept, disk) && DistinctSteps(disk)
    ensures AddMissingSteps(kept, disk) == kept + disk[|kept|..]
    ensures SameIds(AddMissingSteps(kept, disk), disk) && |AddMissingSteps(kept, disk)| == |disk|
  {
    hide AddMissingSteps, DistinctSteps, HasStep;
    StepsFrom(kept, disk, |kept|, 0);
    assert disk[0..] == disk;
    Rejoined(kept, disk);
  }

  lemma Rejoined(kept: seq<StepStatus>, disk: seq<StepStatus>)
    requires SameIds(kept, disk)
    ensures SameIds(kept + disk[|kept|..], disk) && |kept + disk[|kept|..]| == |disk|
  {
  }

  lemma {:induction false} MissingStepsDistinct(kept: seq<StepStatus>, disk: seq<StepStatus>)
    requires DistinctSteps(kept)
    ensures DistinctSteps(AddMissingSteps(kept, disk))
    decreases |disk|
  {
    if disk != [] {
      var next := if HasStep(kept, disk[0].stepId) then kept else kept + [disk[0]];
      MissingStepsDistinct(next, disk[1..]);
    }
  }

  /** Distinct ids are what the merge lives on: saving a snapshot that is merely older restores the
      disk's records exactly when no id repeats among them. */
  lemma MissingStepsIff(kept: seq<StepStatus>, disk: seq<StepStatus>)
    requires SameIds(kept, disk) && DistinctSteps(kept)
    ensures AddMissingSteps(kept, disk) == kept + disk[|kept|..] <==> DistinctSteps(disk)
  {
    if DistinctSteps(disk) {
      MissingSteps(kept, disk);
    }
    if AddMissingSteps(kept, disk) == kept + disk[|kept|..] {
      MissingStepsDistinct(kept, disk);
      SameIdsDistinct(disk, kept + disk[|kept|..]);
    }
  }

  lemma SameIdsDistinct(disk: seq<StepStatus>, merged: seq<StepStatus>)
    requires |disk| == |merged| && DistinctSteps(merged)
    requires forall k :: 0 <= k < |disk| ==> disk[k].stepId == merged[k].stepId
    ensures DistinctSteps(disk)
  {
  }

  /** A revision whose two steps share an id loses the second one to the next stale save. */
  lemma RepeatedIdIsDropped(kept: seq<StepStatus>, first: StepStatus, second: StepStatus)
    requires first.stepId == second.stepId && !HasStep(kept, first.stepId)
    requires DistinctSteps(kept)
    ensures AddMissingSteps(kept, kept + [first, second]) == kept + [first]
  {
    var disk := kept + [first];
    assert DistinctSteps(disk);
    MissingSteps(kept, disk);
    assert kept + [first, second] == disk + [second];
    MissingStepsAppend(kept, disk, [second]);
    assert disk[|kept|..] == [first];
    assert disk[|kept|].stepId == second.stepId;
    assert [second][1..] == [];
  }

  lemma {:induction false} MissingStepsAppend(kept: seq<StepStatus>, xs: seq<StepStatus>, ys: seq<StepStatus>)
    ensures AddMissingSteps(kept, xs + ys) == AddMissingSteps(AddMissingSteps(kept, xs), ys)
    decreases |xs|
  {
    if xs == [] {
      assert xs + ys == ys;
    } else {
      assert (xs + ys)[1..] == xs[1..] + ys;
      MissingStepsAppend(if HasStep(kept, xs[0].stepId) then kept else kept + [xs[0]], xs[1..], ys);
    }
  }

  predicate DistinctRevisions(revisions: seq<RevisionRecord>) {
    forall i, j :: 0 <= i < j < |revisions| ==> revisions[i] != revisions[j]
  }
}
