/**
 What the campaign invariant means to an operator who looks at the files of a campaign. Every
 state that `CampaignRunner.Operate` reaches satisfies `Inv`.
 */
module Guarantees {
  import opened Wrappers
  import opened Paths
  import opened PathAuthority
  import opened Campaign
  import opened StatusWriters
  import opened SharedStatus
  import opened History
  import opened CampaignWorld

  // ---------------------------------------------------------------- accepted steps

  function AcceptedCount(steps: seq<StepStatus>): (n: nat)
    ensures n <= |steps|
  {
    if steps == [] || !IsAccepted(steps[0]) then 0 else 1 + AcceptedCount(steps[1..])
  }

  lemma {:induction false} OrderedMeansPrefix(steps: seq<StepStatus>)
    requires Ordered(steps)
    ensures forall i :: 0 <= i < |steps| ==> (IsAccepted(steps[i]) <==> i < AcceptedCount(steps))
  {
    if steps != [] && IsAccepted(steps[0]) {
      assert Ordered(steps[1..]);
      OrderedMeansPrefix(steps[1..]);
      assert forall i :: 0 < i < |steps| ==> steps[i] == steps[1..][i - 1];
    } else if steps != [] {
      assert forall i :: 0 < i < |steps| ==> Pristine(steps[i]);
    }
  }

  /** Accepted steps are a prefix of the effective steps, and behind the first step that is not
      accepted nothing has been attempted. */
  lemma AcceptedStepsArePrefix(campaign: CampaignDocument, w: World)
    requires StatusInv(campaign, w)
    ensures |w.disk.steps| == |EffectiveSteps(campaign, w.log)| <= campaign.limits.maxSteps
    ensures forall i :: 0 <= i < |w.disk.steps| ==> w.disk.steps[i].stepId == EffectiveSteps(campaign, w.log)[i].id
    ensures forall i :: 0 <= i < |w.disk.steps| ==> (IsAccepted(w.disk.steps[i]) <==> i < AcceptedCount(w.disk.steps))
    ensures forall i :: AcceptedCount(w.disk.steps) < i < |w.disk.steps| ==> w.disk.steps[i].attempts == []
  {
    assert Durable(campaign, w.log, w.disk) && Lawful(campaign.limits.maxTotalAttempts, w.disk.steps, w.branch);
    hide StatusInv, EffectiveSteps;
    OrderedMeansPrefix(w.disk.steps);
    var n := AcceptedCount(w.disk.steps);
    forall i | n < i < |w.disk.steps|
      ensures w.disk.steps[i].attempts == []
    {
      assert !IsAccepted(w.disk.steps[n]);
    }
  }

  /** Attempts are numbered exactly 1, 2, .. N through the whole campaign, within its cap. */
  lemma AttemptsAreNumbered(campaign: CampaignDocument, w: World)
    requires StatusInv(campaign, w)
    ensures var numbers := Numbers(w.disk.steps, |w.disk.steps|);
      && |numbers| == TotalAttempts(w.disk.steps) <= campaign.limits.maxTotalAttempts
      && forall k :: 0 <= k < |numbers| ==> numbers[k] == k + 1
  {
    assert Lawful(campaign.limits.maxTotalAttempts, w.disk.steps, w.branch);
    hide StatusInv;
    NumberedOneToN(w.disk.steps, |w.disk.steps|);
  }

  /** A campaign is completed only when every step it has is accepted, the steps of revisions included;
      without an interrupted commit its branch is then exactly the implementations' commits. */
  lemma CompletedIsAccepted(campaign: CampaignDocument, w: World)
    requires StatusInv(campaign, w) && w.disk.state == Completed
    ensures |w.disk.steps| == |EffectiveSteps(campaign, w.log)|
    ensures forall i :: 0 <= i < |w.disk.steps| ==>
      IsAccepted(w.disk.steps[i]) && w.disk.steps[i].stepId == EffectiveSteps(campaign, w.log)[i].id
    ensures w.orphans == 0 && !w.open ==> AcceptedTags(w.disk.steps) == Tags(w.branch)
  {
    assert Settled(w);
    hide IsAccepted, AcceptedTags, EffectiveSteps, Embeds, Lawful;
    AcceptedStepsArePrefix(campaign, w);
    BranchIsAcceptedCommits(campaign, w);
  }

  // ---------------------------------------------------------------- the branch

  /** The branch is exactly the accepted implementation steps' commits, in step order, unless a
      run was interrupted between its commit and the record of it; and then it is not. */
  lemma BranchIsAcceptedCommits(campaign: CampaignDocument, w: World)
    requires StatusInv(campaign, w)
    ensures AcceptedTags(w.disk.steps) == Tags(w.branch) <==> w.orphans == 0 && !w.open
    ensures AcceptedTags(w.disk.steps) == Tags(w.branch) <==> |w.branch| == |AcceptedTags(w.disk.steps)|
    ensures |w.branch| == |AcceptedTags(w.disk.steps)| + w.orphans + (if w.open then 1 else 0)
    ensures w.orphans == 0 && !w.open ==> w.disk.headSha == HeadOf(campaign.baseSha, w.branch)
  {
    assert Embeds(AcceptedTags(w.disk.steps), Tags(w.branch)) && Accounted(w) && HeadOwned(campaign.baseSha, w);
    hide StatusInv, Embeds, AcceptedTags;
    EmbedsLength(AcceptedTags(w.disk.steps), Tags(w.branch));
  }

  /** A waiting commit gets its owner with the first save that lands and carries the acceptance, even
      one that reports an error or blocks the campaign; it is orphaned exactly if the process ends
      before that. */
  lemma OrphanedIff(campaign: CampaignDocument, w: World, resume: bool)
    requires Inv(campaign, w) && w.open
    ensures w.branch != []
    ensures AfterSave(w, resume).open <==> AcceptedTags(w.memory.steps) == AcceptedTags(w.disk.steps)
    ensures Restarted(AfterSave(w, resume)).orphans == w.orphans <==>
      AcceptedTags(w.memory.steps) == AcceptedTags(w.disk.steps) + [TagOf(w.branch[|w.branch| - 1])]
    ensures Restarted(w).orphans == w.orphans + 1
  {
    hide AcceptedTags, Merged, Embeds, EffectiveSteps, Lawful, Agrees, KeepsAccepted;
    SavedSteps(campaign, w, resume);
    MemorySound(campaign, w);
    hide Inv;
    SavedWindow(w, resume);
  }

  lemma SavedWindow(w: World, resume: bool)
    requires Accounted(w) && w.open
    requires AcceptedTags(Merged(w.disk, w.memory, resume).steps) == AcceptedTags(w.memory.steps)
    ensures AfterSave(w, resume).open <==> AcceptedTags(w.memory.steps) == AcceptedTags(w.disk.steps)
    ensures !AfterSave(w, resume).open <==>
      AcceptedTags(w.memory.steps) == AcceptedTags(w.disk.steps) + [TagOf(w.branch[|w.branch| - 1])]
  {
    hide AcceptedTags, Merged, Embeds;
  }

  lemma {:induction false} TagOfStep(steps: seq<StepStatus>, i: nat)
    requires i < |steps| && steps[i].acceptedCommit.Some?
    ensures Tag(steps[i].acceptedCommit.value, steps[i].stepId) in AcceptedTags(steps)
  {
    if i < |steps| - 1 {
      TagOfStep(steps[..|steps| - 1], i);
    }
  }

  lemma {:induction false} EmbeddedTag(xs: seq<Tag>, ys: seq<Tag>, tag: Tag)
    requires Embeds(xs, ys) && tag in xs
    ensures tag in ys
    decreases |ys|
  {
    var front := xs[..|xs| - 1];
    assert xs == front + [xs[|xs| - 1]];
    if xs[|xs| - 1] == ys[|ys| - 1] {
      if tag in front {
        EmbeddedTag(front, ys[..|ys| - 1], tag);
      }
    } else {
      EmbeddedTag(xs, ys[..|ys| - 1], tag);
    }
  }

  /** `k` is the position of the commit that step `i` owns. */
  predicate OwnsAt(w: World, i: nat, k: nat) {
    && i < |w.disk.steps| && k < |w.branch|
    && w.disk.steps[i].acceptedCommit == Some(w.branch[k].sha)
    && w.disk.steps[i].stepId == w.branch[k].stepId
  }

  /** Interrupted or not, an accepted implementation owns exactly one commit of the branch; a step
      that is not an accepted implementation owns none. */
  lemma AcceptedOwnsOneCommit(campaign: CampaignDocument, w: World, i: nat)
    requires StatusInv(campaign, w) && i < |w.disk.steps|
    ensures (exists k :: OwnsAt(w, i, k)) <==> IsAccepted(w.disk.steps[i]) && w.disk.steps[i].kind == Implementation
    ensures forall k, l :: OwnsAt(w, i, k) && OwnsAt(w, i, l) ==> k == l
  {
    RecordSound(campaign, w, i);
    CommitsDiffer(campaign, w);
    hide StatusInv, Embeds, AcceptedTags, KindTied;
    if w.disk.steps[i].acceptedCommit.Some? {
      OwnsSome(w, i);
    }
  }

  /** No commit has two owners. */
  lemma CommitHasOneOwner(campaign: CampaignDocument, w: World, i: nat, j: nat, k: nat)
    requires StatusInv(campaign, w) && OwnsAt(w, i, k) && OwnsAt(w, j, k)
    ensures i == j
  {
    StepsDiffer(campaign, w);
    hide StatusInv;
  }

  lemma OwnsSome(w: World, i: nat)
    requires i < |w.disk.steps| && w.disk.steps[i].acceptedCommit.Some?
    requires Embeds(AcceptedTags(w.disk.steps), Tags(w.branch))
    ensures exists k :: OwnsAt(w, i, k)
  {
    hide Embeds, AcceptedTags;
    var tag := Tag(w.disk.steps[i].acceptedCommit.value, w.disk.steps[i].stepId);
    TagOfStep(w.disk.steps, i);
    EmbeddedTag(AcceptedTags(w.disk.steps), Tags(w.branch), tag);
    var k :| 0 <= k < |w.branch| && Tags(w.branch)[k] == tag;
    assert OwnsAt(w, i, k);
  }

  lemma RecordSound(campaign: CampaignDocument, w: World, i: nat)
    requires StatusInv(campaign, w) && i < |w.disk.steps|
    ensures Sound(w.disk.steps[i]) && Embeds(AcceptedTags(w.disk.steps), Tags(w.branch))
    ensures AllAssigned(campaign.policy, w.disk.steps)
  {
  }

  lemma CommitsDiffer(campaign: CampaignDocument, w: World)
    requires StatusInv(campaign, w)
    ensures forall k, l :: 0 <= k < l < |w.branch| ==> w.branch[k].sha != w.branch[l].sha
  {
  }

  lemma StepsDiffer(campaign: CampaignDocument, w: World)
    requires StatusInv(campaign, w)
    ensures forall i, j :: 0 <= i < j < |w.disk.steps| ==> w.disk.steps[i].stepId != w.disk.steps[j].stepId
  {
    hide EffectiveSteps;
  }

  predicate MadeFor(step: CampaignStep, commit: Commit) {
    step.id == commit.stepId
  }

  /** Every path of every commit is a source path inside the authority of the step that made the
      commit, and of the campaign, whether the campaign or a revision brought the step. */
  lemma CommitsStayInside(campaign: CampaignDocument, w: World, k: nat, path: string)
    requires AuthorityInv(campaign, w) && k < |w.branch| && path in w.branch[k].paths
    ensures !IsEphemeral(path) && Authorized(path, campaign.permittedPaths)
    ensures exists step ::
      step in EffectiveSteps(campaign, w.log) && MadeFor(step, w.branch[k]) && Authorized(path, step.allowedPaths)
  {
    assert CommitAuthorized(campaign, EffectiveSteps(campaign, w.log), w.branch[k]);
    hide AuthorityInv, EffectiveSteps, Authorized, IsEphemeral;
    var steps := EffectiveSteps(campaign, w.log);
    var i :| 0 <= i < |steps| && CommitFits(campaign, steps[i], w.branch[k]);
    assert steps[i] in steps && MadeFor(steps[i], w.branch[k]);
  }

  /** Every commit changes something under every path that its step requires. */
  lemma CommitsChangeWhatIsRequired(campaign: CampaignDocument, w: World, k: nat)
    requires AuthorityInv(campaign, w) && k < |w.branch|
    ensures exists step ::
      step in EffectiveSteps(campaign, w.log) && MadeFor(step, w.branch[k])
      && forall j :: 0 <= j < |step.requiredPaths| ==> ChangedUnder(w.branch[k].paths, step.requiredPaths[j])
  {
    assert CommitAuthorized(campaign, EffectiveSteps(campaign, w.log), w.branch[k]);
    hide AuthorityInv, EffectiveSteps, Authorized, IsEphemeral, RequiredPrefixSatisfied, ChangedUnder;
    var steps, paths := EffectiveSteps(campaign, w.log), w.branch[k].paths;
    var i :| 0 <= i < |steps| && CommitFits(campaign, steps[i], w.branch[k]);
    forall j | 0 <= j < |steps[i].requiredPaths|
      ensures ChangedUnder(paths, steps[i].requiredPaths[j])
    {
      RequiredPrefixMeans(paths, steps[i].requiredPaths[j]);
    }
    assert steps[i] in steps && MadeFor(steps[i], w.branch[k]);
  }

  // ---------------------------------------------------------------- workers and time

  /** Every recorded attempt was made by the worker of its kind, and a repair or fallback continues the
      attempt numbered right before it, or none if its loop had made none. */
  lemma AttemptsAreAssigned(campaign: CampaignDocument, w: World, i: nat, a: nat)
    requires StatusInv(campaign, w) && i < |w.disk.steps| && a < |w.disk.steps[i].attempts|
    ensures var attempt := w.disk.steps[i].attempts[a];
      && (attempt.kind == Fallback ==> attempt.worker == campaign.policy.fallback)
      && (attempt.kind != Fallback ==> attempt.worker == campaign.policy.primary)
      && (attempt.kind == Repair <==> attempt.repairOf.Some?)
      && (attempt.kind == Fallback <==> attempt.fallbackOf.Some?)
      && (attempt.repairOf.Some? ==> attempt.repairOf.value == 0 || attempt.repairOf.value + 1 == attempt.attempt)
      && (attempt.fallbackOf.Some? ==> attempt.fallbackOf.value == 0 || attempt.fallbackOf.value + 1 == attempt.attempt)
  {
    assert AllAssigned(campaign.policy, w.disk.steps) && Sound(w.disk.steps[i]) by {
      hide *;
      RecordSound(campaign, w, i);
    }
    hide StatusInv, DispositionOf, Embeds, AcceptedTags;
    assert KindTied(w.disk.steps[i].kind, w.disk.steps[i].attempts[a]);
    assert Assigned(campaign.policy, w.disk.steps[i].attempts[a]);
  }

  /** Every implementer call and every commit was let through by a checkpoint that read a time before
      the campaign's runtime was used up; each call went to one of its two workers. */
  lemma EffectsAreInTime(campaign: CampaignDocument, w: World, k: nat)
    requires StatusInv(campaign, w)
    ensures k < |w.calls| ==> w.calls[k].clearedAt < w.disk.startTime + campaign.limits.maxRuntimeSeconds
    ensures k < |w.calls| ==>
      w.calls[k].worker == campaign.policy.primary || w.calls[k].worker == campaign.policy.fallback
    ensures k < |w.branch| ==> w.branch[k].clearedAt < w.disk.startTime + campaign.limits.maxRuntimeSeconds
  {
    assert Scheduled(campaign, w);
  }

  /** The start time is never moved, so the deadline is one and the same for all runs. */
  lemma DeadlineStands(campaign: CampaignDocument, w: World, t: World)
    requires Continues(campaign, w, t)
    ensures Deadline(campaign, t.disk) == Deadline(campaign, w.disk)
  {
  }

  // ---------------------------------------------------------------- stop requests

  /** After a stop request is durable and until it is withdrawn at most one more implementer call
      or commit is started, and one more for every two checkpoints that could not read the
      status: two lie between any two effects. */
  lemma StopIsPrompt(campaign: CampaignDocument, w: World)
    requires StatusInv(campaign, w) && (w.disk.pauseRequested || w.disk.cancelRequested)
    ensures 0 <= Effects(w) <= 1 + w.failedReads / 2
    ensures w.failedReads <= 1 ==> Effects(w) <= 1
  {
  }

  /** A campaign that is paused right after it was started. */
  function PausedAtStart(campaign: CampaignDocument, now: nat): World {
    var first := FirstStatus(campaign, now);
    AfterWrite(World(first, [], [], first, false, 0, [], 0, 0), PauseWrite(first))
  }

  /** A call that was on its way, then `n` times the two checkpoints of a transport recovery, none of
      which can read the status, and the next call. */
  function Unread(paused: World, call: Call, n: nat): World {
    if n == 0 then AfterEffect(paused, call) else AfterEffect(ReadFailed(ReadFailed(Unread(paused, call, n - 1))), call)
  }

  /** The bound is reached for every number of unread checkpoints. */
  lemma {:induction false} UnreadCheckpointsAllowMore(campaign: CampaignDocument, policy: Policy, now: nat, n: nat)
    requires ValidCampaign(campaign, policy) && Distinct(DocumentIds(campaign.steps))
    ensures var paused := PausedAtStart(campaign, now);
      var w := Unread(paused, Call(campaign.policy.primary, now), n);
      && w.disk == paused.disk && Inv(campaign, w) && Continues(campaign, paused, w) && w.disk.pauseRequested
      && Effects(paused) == 0 && Effects(w) == n + 1 && w.failedReads == 2 * n
  {
    hide ValidCampaign, Inv, EffectiveSteps, CallFits, PausedAtStart, AcceptsNothing;
    var paused, call := PausedAtStart(campaign, now), Call(campaign.policy.primary, now);
    if n == 0 {
      PausedFirst(campaign, policy, now);
      EffectKeepsInv(campaign, paused, call);
    } else {
      PausedFirst(campaign, policy, now);
      UnreadCheckpointsAllowMore(campaign, policy, now, n - 1);
      NextUnread(campaign, paused, Unread(paused, call, n - 1), call);
    }
  }

  lemma PausedFirst(campaign: CampaignDocument, policy: Policy, now: nat)
    requires ValidCampaign(campaign, policy) && Distinct(DocumentIds(campaign.steps))
    ensures var paused := PausedAtStart(campaign, now);
      && Inv(campaign, paused) && Continues(campaign, paused, paused) && paused.disk.pauseRequested
      && Effects(paused) == 0 && paused.failedReads == 0
      && CallFits(campaign, paused.disk, Call(campaign.policy.primary, now))
  {
    assert campaign.limits.maxRuntimeSeconds > 0;
    hide ValidCampaign, Inv, EffectiveSteps, PendingSteps, Continues;
    PausedInv(campaign, policy, now);
    ContinuesReflexive(campaign, PausedAtStart(campaign, now));
  }

  lemma PausedInv(campaign: CampaignDocument, policy: Policy, now: nat)
    requires ValidCampaign(campaign, policy) && Distinct(DocumentIds(campaign.steps))
    ensures Inv(campaign, PausedAtStart(campaign, now))
  {
    var first := FirstStatus(campaign, now);
    var w := World(first, [], [], first, false, 0, [], 0, 0);
    assert CancelShows(first) && PausedAtStart(campaign, now) == AfterWrite(w, PauseWrite(first));
    hide *;
    FirstWorld(campaign, policy, now);
    PauseWrites(w);
    FlagWriteKeepsInv(campaign, w, PauseWrite(first));
  }

  lemma NextUnread(campaign: CampaignDocument, paused: World, w: World, call: Call)
    requires Inv(campaign, w) && Continues(campaign, paused, w) && w.disk == paused.disk && w.disk.pauseRequested
    requires CallFits(campaign, w.disk, call) && 2 * Effects(w) <= w.failedReads + 2
    ensures var t := AfterEffect(ReadFailed(ReadFailed(w)), call);
      && Inv(campaign, t) && Continues(campaign, paused, t) && t.disk == paused.disk
      && Effects(t) == Effects(w) + 1 && t.failedReads == w.failedReads + 2
  {
    hide Inv, EffectiveSteps, IsAccepted, CallFits;
    FailedReadKeepsInv(campaign, w);
    FailedReadKeepsInv(campaign, ReadFailed(w));
    EffectKeepsInv(campaign, ReadFailed(ReadFailed(w)), call);
  }

  /** Nothing that continues from a cancelled campaign withdraws the cancellation. */
  lemma CancelStays(campaign: CampaignDocument, w: World, t: World)
    requires StatusInv(campaign, t) && Continues(campaign, w, t) && w.disk.cancelRequested
    ensures t.disk.cancelRequested
    ensures t.disk.state == Cancelled || t.disk.state == Completed || t.disk.state == Expired
  {
    assert CancelShows(t.disk);
  }

  // ---------------------------------------------------------------- interrupted commits

  /** The world right after a process died between its commit and the next save. */
  function Interrupted(campaign: CampaignDocument, now: nat, commit: Commit): World {
    var first := FirstStatus(campaign, now);
    Restarted(AfterCommit(World(first, [], [], first, false, 0, [], 0, 0), commit))
  }

  /** The gap is real: the first step's commit is made, the process dies before the next save,
      and from then on every run and every revision leaves the branch with a commit that no
      accepted step owns; no further step is ever accepted. */
  lemma InterruptedCommitIsOrphaned(campaign: CampaignDocument, policy: Policy, now: nat, commit: Commit, later: World)
    requires ValidCampaign(campaign, policy) && Distinct(DocumentIds(campaign.steps))
    requires commit.sha != campaign.baseSha && CommitAuthorized(campaign, campaign.steps, commit)
    requires commit.clearedAt < now + campaign.limits.maxRuntimeSeconds
    requires Continues(campaign, Interrupted(campaign, now, commit), later)
    ensures Inv(campaign, Interrupted(campaign, now, commit))
    ensures later.branch == [commit]
    ensures later.disk.headSha == campaign.baseSha
    ensures forall i :: 0 <= i < |later.disk.steps| ==> !IsAccepted(later.disk.steps[i])
  {
    var first := FirstStatus(campaign, now);
    var w := World(first, [], [], first, false, 0, [], 0, 0);
    assert forall i :: 0 <= i < |first.steps| ==> !IsAccepted(first.steps[i]);
    assert Halted(campaign, Interrupted(campaign, now, commit));
    assert EffectiveSteps(campaign, []) == campaign.steps;
    hide ValidCampaign, EffectiveSteps, CommitAuthorized, Inv;
    FirstWorld(campaign, policy, now);
    CommitKeepsInv(campaign, w, commit);
    RestartKeepsInv(campaign, AfterCommit(w, commit));
  }
}
