/**
 The campaign runner: `run`, `resume` and everything below them, over the files of one
 campaign. What other systems answer (git, implementer, executor, reviewer, reasoner,
 health, clock, lease) is arbitrary and drawn with `*`. Between any two actions of the
 runner the other writers may write, and any action may fail or be the last of its process.
 */
module CampaignRunning {
  import opened Wrappers
  import opened Paths
  import opened PathAuthority
  import opened Campaign
  import opened StatusWriters
  import opened SharedStatus
  import opened History
  import opened CampaignWorld
  import opened Review
  import opened Recovery
  import opened Reconcile

  /** `Again` asks the attempt loop for another attempt. */
  datatype StepOutcome = Done | Stopped | Again

  /** The disposition `persist_attempt` gives a step; an accepted review leaves it to its successor. */
  function DispositionAfter(verdict: CoordinatorVerdict, before: StepDisposition): StepDisposition {
    match verdict.disposition
    case Accepted => before
    case RejectedTerminal => StepBlocked
    case RejectedRetryable => StepRejected
  }

  /** Only the `i`-th record changes, and it stays the same step's. */
  predicate OnlyAt(i: nat, before: seq<StepStatus>, after: seq<StepStatus>) {
    && |after| == |before|
    && forall j :: 0 <= j < |before| && j != i ==> after[j] == before[j]
  }

  class CampaignRunner {
    const campaign: CampaignDocument
    const commandAllowed: Policy
    const recovery: RecoveryLimits
    const hasReviewer: bool
    const hasReasoner: bool

    var disk: CampaignStatus                // state.json
    var log: seq<RevisionDocument>          // revisions.jsonl
    var branch: seq<Commit>                 // the campaign branch above the base
    var state: CampaignStatus               // the snapshot of the running process
    var time: nat                           // what the clock shows; it moves while others act
    var clock: nat                          // what the last checkpoint read off it
    var alive: bool                         // the running process has not died

    ghost var open: bool                    // see `World`
    ghost var orphans: nat
    ghost var mark: nat
    ghost var failedReads: nat
    ghost var start: World                  // where the current run began
    ghost var faults: nat                   // failed or interrupted actions so far
    ghost var calls: seq<Call>              // implementer calls so far
    ghost var sleeps: seq<Sleep>            // waits so far

    ghost function Now(): World
      reads `disk, `log, `branch, `state, `open, `orphans, `calls, `mark, `failedReads
    {
      World(disk, log, branch, state, open, orphans, calls, mark, failedReads)
    }

    ghost predicate Valid()
      reads `start, `disk, `log, `branch, `state, `open, `orphans, `calls, `mark, `failedReads
    {
      Reached(campaign, start, Now())
    }

    /** Every stop request so far has been answered by a checkpoint. */
    ghost predicate IsClear()
      reads `disk, `log, `branch, `state, `open, `orphans, `calls, `mark, `failedReads
    {
      Clear(Now())
    }

    /** All but one of the two checkpoints that lie between effects have been passed. */
    ghost predicate IsHalfClear()
      reads `disk, `log, `branch, `state, `open, `orphans, `calls, `mark, `failedReads
    {
      HalfClear(Now())
    }

    ghost predicate IsUnclaimed()
      reads `disk, `log, `branch, `state, `open, `orphans, `calls, `mark, `failedReads
    {
      Unclaimed(Now())
    }

    ghost function Effective(): seq<CampaignStep>
      reads `log
    {
      EffectiveSteps(campaign, log)
    }

    /** The worktree is where the snapshot says. */
    ghost predicate AtHead()
      reads `state, `branch
    {
      state.headSha == HeadOf(campaign.baseSha, branch)
    }

    /** The last checkpoint came before the campaign's time was used up. */
    ghost predicate IsTimely()
      reads `clock, `state
    {
      clock < state.startTime + campaign.limits.maxRuntimeSeconds
    }

    /** The run is working on `step`, whose record is the `i`-th. */
    ghost predicate AtStep(i: nat, step: CampaignStep)
      reads `state, `log
    {
      && Current(state.steps, i)
      && state.steps[i].stepId == step.id && state.steps[i].kind == step.kind
      && i < |Effective()| && Effective()[i] == step
    }

    /** The first `n` records of the snapshot are accepted. */
    ghost predicate AcceptedUpTo(n: nat)
      reads `state
    {
      n <= |state.steps| && forall j :: 0 <= j < n ==> IsAccepted(state.steps[j])
    }

    /** The first `n` records on disk are accepted. */
    ghost predicate DurableUpTo(n: nat)
      reads `disk
    {
      n <= |disk.steps| && forall j :: 0 <= j < n ==> IsAccepted(disk.steps[j])
    }

    /** Actions fail now and then; only a failed action leaves a checkpoint without its reading. */
    twostate predicate Tallied()
      reads `faults, `failedReads
    {
      faults >= old(faults) && failedReads + old(faults) <= old(failedReads) + faults
    }

    /** A stop request stands, and what is counted since it became durable goes on from there. */
    twostate predicate Requested()
      reads `disk, `mark
    {
      old(StopRequested(disk)) ==> StopRequested(disk) && mark == old(mark)
    }

    /** The disk shows what the run has come to, or that the campaign is cancelled. */
    predicate Shown()
      reads `disk, `state
    {
      && disk.leaseId == state.leaseId
      && ((disk.state == state.state && disk.blockedReason == state.blockedReason)
          || (disk.cancelRequested && disk.state == Cancelled))
    }

    /** The run has stopped, and does not go on by itself. */
    predicate Stopping()
      reads `state
    {
      match state.state
      case Blocked | Cancelled | Expired => true
      case Paused => state.pauseRequested
      case _ => false
    }

    /** The run is on: nothing has stopped it, and so no revision is let in. */
    ghost predicate Active()
      reads `disk, `state
    {
      state.state == Running && !Revisable(disk)
    }

    /** A run that has stopped stays so, and while it is on the steps stay what they are. */
    twostate predicate Onward()
      reads `disk, `state, `log
    {
      && (old(state.state) != Running ==> state.state != Running)
      && (old(Active()) ==> state.state != Running || (Active() && log == old(log)))
    }

    /** The run has stopped for this reason. */
    predicate Blamed(classification: FailureClassification)
      reads `state
    {
      Stopping() && state.blockedReason == Some(classification)
    }

    /** The run has stopped at a checkpoint. */
    predicate AtCheckpoint()
      reads `state
    {
      Stopping() && StopState(state) == Some(state.state)
    }

    /** The snapshot shows which worker is being asked. */
    predicate Asking(worker: string)
      reads `state
    {
      && state.activity.worker == Some(worker)
      && (state.activity.action == ModelRequest || state.activity.action == RepairRequest
          || state.activity.action == FallbackRequest)
    }

    /** No checkpoint is undone, no window moves, no step is forgotten. */
    twostate predicate Quiet()
      reads `faults, `alive, `disk, `log, `branch, `state, `open, `orphans, `calls, `mark, `failedReads
    {
      && (old(IsClear()) ==> IsClear())
      && (old(IsHalfClear()) ==> IsHalfClear())
      && (old(IsUnclaimed()) ==> IsUnclaimed())
      && (open ==> old(open))
      && state.headSha == old(state.headSha) && state.startTime == old(state.startTime)
      && old(Effective()) <= Effective()
      && Tallied() && Onward()
      && (!old(alive) ==> !alive)
    }

    /** Bookkeeping only: quiet, and every stop request stands. */
    twostate predicate Calm()
      reads `faults, `alive, `disk, `log, `branch, `state, `open, `orphans, `calls, `mark, `failedReads
    {
      Quiet() && Requested()
    }

    /** A request that stands, and that the run has read, it goes on knowing. */
    twostate predicate Heeding()
      reads `disk, `state
    {
      old(StopRequested(disk) && StopRequested(state)) ==> StopRequested(state)
    }

    /** Nothing is asked of the implementer, and nothing is committed. */
    twostate predicate Idle()
      reads `calls, `branch
    {
      calls == old(calls) && branch == old(branch)
    }

    /** Calm, and the snapshot's records are untouched. */
    twostate predicate Steady()
      reads `faults, `alive, `disk, `log, `branch, `state, `open, `orphans, `calls, `mark, `failedReads
    {
      Calm() && Heeding() && state.steps == old(state.steps)
    }

    // -------------------------------------------------------------- faults and the environment

    /** An action that touches the outside may fail, and may be the last of its process. */
    method Fault() returns (failed: bool)
      modifies `alive, `faults
      ensures faults == old(faults) + (if failed then 1 else 0)
      ensures !failed ==> alive && old(alive)
      ensures !old(alive) ==> !alive
    {
      var dies: bool := *;
      var fails: bool := *;
      if dies {
        alive := false;
      }
      failed := fails || !alive;
      if failed {
        faults := faults + 1;
      }
    }

    method Update(next: CampaignStatus)
      requires Valid() && CoreEqual(next, state) && (next.state == Running ==> state.state == Running)
      modifies `state
      ensures Valid() && Steady()
      ensures state == next
    {
      hide Reached, Clear, HalfClear, Unclaimed, EffectiveSteps;
      EditStep(campaign, start, Now(), next);
      state := next;
    }

    /** Any operator, heartbeat or container write that leaves records and requests standing. */
    method Overwrite(next: CampaignStatus)
      requires Valid() && FlagWrite(Now(), next)
      modifies `disk, `mark, `failedReads
      ensures Valid() && Steady()
      ensures disk == next
    {
      hide Reached, Clear, HalfClear, Unclaimed, EffectiveSteps, FlagWrite;
      ghost var after := AfterWrite(Now(), next);
      WriteStep(campaign, start, Now(), next);
      mark := after.mark;
      failedReads := after.failedReads;
      disk := next;
      assert Now() == after;
    }

    lemma CancelsShow()
      requires Valid()
      ensures CancelShows(disk)
    {
    }

    method Pause()
      requires Valid()
      modifies `disk, `mark, `failedReads
      ensures Valid() && Steady()
      ensures disk == PauseWrite(old(disk))
    {
      CancelsShow();
      assert Now().disk == disk;
      PauseWrites(Now());
      hide *;
      Overwrite(PauseWrite(disk));
    }

    method Cancel(reason: Option<string>, now: nat)
      requires Valid()
      modifies `disk, `mark, `failedReads
      ensures Valid() && Steady()
      ensures disk == CancelWrite(old(disk), reason, now)
      ensures disk.cancelRequested && CancelShows(disk)
    {
      assert Now().disk == disk;
      CancelWrites(Now(), reason, now);
      hide *;
      Overwrite(CancelWrite(disk, reason, now));
    }

    method BeatInBackground(activity: Activity)
      requires Valid()
      modifies `disk, `mark, `failedReads
      ensures Valid() && Steady()
      ensures disk == BeatWrite(old(disk), activity)
    {
      CancelsShow();
      assert Now().disk == disk;
      BeatWrites(Now(), activity);
      hide *;
      Overwrite(BeatWrite(disk, activity));
    }

    method ContainerChanged(container: Option<string>)
      requires Valid()
      modifies `disk, `mark, `failedReads
      ensures Valid() && Steady()
      ensures disk == ContainerWrite(old(disk), container)
    {
      CancelsShow();
      assert Now().disk == disk;
      ContainerWrites(Now(), container);
      hide *;
      Overwrite(ContainerWrite(disk, container));
    }

    method Revise(revision: RevisionDocument, now: nat) returns (accepted: bool)
      requires Valid() && Distinct(DocumentIds(revision.steps))
      modifies `disk, `log
      ensures Valid() && Steady()
      ensures accepted == CanRevise(campaign, old(disk), revision, commandAllowed)
      ensures disk == if accepted then ReviseWrite(old(disk), revision, now) else old(disk)
      ensures log == if accepted then old(log) + [revision] else old(log)
      ensures AcceptedTags(disk.steps) == AcceptedTags(old(disk.steps))
    {
      hide Reached, Clear, HalfClear, Unclaimed, EffectiveSteps, CanRevise, AcceptedTags, ReviseWrite, Revisable;
      RevisionsNeedAStop(revision, now);
      accepted := CanRevise(campaign, disk, revision, commandAllowed);
      if accepted {
        ghost var after := AfterRevise(Now(), revision, now);
        ReviseStep(campaign, commandAllowed, start, Now(), revision, now);
        disk := ReviseWrite(disk, revision, now);
        log := log + [revision];
        assert Now() == after;
      }
    }

    lemma RevisionsNeedAStop(revision: RevisionDocument, now: nat)
      ensures CanRevise(campaign, disk, revision, commandAllowed) ==> Revisable(disk)
      ensures StopRequested(ReviseWrite(disk, revision, now)) <==> StopRequested(disk)
    {
      hide StepPermitted, ValidStep;
    }

    /** Any number of writes by anyone but the runner. */
    method Interfere()
      requires Valid()
      modifies `disk, `log, `mark, `time, `failedReads
      ensures Valid() && Steady()
      ensures disk.headSha == old(disk.headSha)
      ensures AcceptedTags(disk.steps) == AcceptedTags(old(disk.steps))
    {
      hide Reached, AcceptedTags, EffectiveSteps, Clear, HalfClear, Valid, IsClear, IsHalfClear, IsUnclaimed, CanRevise;
      var writes: nat := *;
      time := *;
      while writes > 0
        invariant Valid() && Steady()
        invariant disk.headSha == old(disk.headSha)
        invariant AcceptedTags(disk.steps) == AcceptedTags(old(disk.steps))
      {
        var kind: nat := *;
        var now: nat := *;
        match kind {
          case 0 => Pause();
          case 1 =>
            var reason: Option<string> := *;
            Cancel(reason, now);
          case 2 =>
            var activity: Activity := *;
            BeatInBackground(activity);
          case 3 =>
            var container: Option<string> := *;
            ContainerChanged(container);
          case _ =>
            var revision: RevisionDocument := *;
            ghost var ids := DocumentIds(revision.steps);
            if HasDistinctIds(revision) {
              var _ := Revise(revision, now);
            }
        }
        writes := writes - 1;
      }
    }

    /** Revisions that repeat a step id among themselves are outside the model. */
    predicate HasDistinctIds(revision: RevisionDocument)
      ensures HasDistinctIds(revision) ==> Distinct(DocumentIds(revision.steps))
    {
      forall i, j :: 0 <= i < j < |revision.steps| ==> revision.steps[i].id != revision.steps[j].id
    }

    // -------------------------------------------------------------- saving

    /** A save that reports an error may have replaced the file all the same. */
    method SaveWith(resume: bool) returns (r: Result<()>)
      requires Valid() && (resume ==> !state.pauseRequested)
      modifies `disk, `log, `open, `mark, `time, `failedReads, `alive, `faults
      ensures Valid() && Quiet() && (!resume ==> Steady())
      ensures r.Err? ==> faults > old(faults)
      ensures r.Ok? && resume ==> !disk.pauseRequested
      ensures r.Ok? ==> Shown() && (state.cancelRequested ==> disk.cancelRequested)
      ensures r.Ok? ==> disk.headSha == state.headSha && alive
      ensures r.Ok? && |AcceptedTags(state.steps)| != |AcceptedTags(old(disk.steps))| ==> !open
      ensures r.Ok? ==> forall n :: AcceptedUpTo(n) ==> DurableUpTo(n)
    {
      hide Reached, Clear, HalfClear, Unclaimed, EffectiveSteps, AcceptedTags, Merged;
      Interfere();
      var wasAlive := alive;
      var failed := Fault();
      var landed: bool := *;
      if !failed || (wasAlive && landed) {
        ghost var after := AfterSave(Now(), resume);
        SaveStep(campaign, start, Now(), resume);
        open := after.open;
        disk := MergeRunnerState(disk, state, resume);
        assert Now() == after;
      }
      var executor: bool := *;
      return if failed then Err(executor) else Ok(());
    }

    method Save() returns (r: Result<()>)
      requires Valid()
      modifies `disk, `log, `open, `mark, `time, `failedReads, `alive, `faults
      ensures Valid() && Steady()
      ensures r.Err? ==> faults > old(faults)
      ensures r.Ok? ==> disk.headSha == state.headSha && alive && Shown()
      ensures r.Ok? && |AcceptedTags(state.steps)| != |AcceptedTags(old(disk.steps))| ==> !open
      ensures r.Ok? ==> forall n :: AcceptedUpTo(n) ==> DurableUpTo(n)
    {
      hide AcceptedUpTo, DurableUpTo;
      r := SaveWith(false);
    }

    /** Writing an event, or any other action on files the status does not depend on. */
    method Emit() returns (r: Result<()>)
      modifies `alive, `faults
      ensures r.Err? ==> faults > old(faults)
      ensures r.Ok? ==> faults == old(faults) && alive
      ensures !old(alive) ==> !alive
    {
      var failed := Fault();
      var executor: bool := *;
      return if failed then Err(executor) else Ok(());
    }

    method SaveAndEmit() returns (r: Result<()>)
      requires Valid()
      modifies `disk, `log, `open, `mark, `time, `failedReads, `alive, `faults
      ensures Valid() && Steady()
      ensures r.Err? ==> faults > old(faults)
      ensures r.Ok? ==> disk.headSha == state.headSha && alive && Shown()
      ensures r.Ok? ==> forall n :: AcceptedUpTo(n) ==> DurableUpTo(n)
    {
      hide Reached, Clear, HalfClear, Unclaimed, EffectiveSteps, AcceptedTags, AcceptedUpTo, DurableUpTo;
      hide Valid, IsClear, IsHalfClear, IsUnclaimed, Effective, StopRequested, Effects;
      var _ :- Save();
      r := Emit();
    }

    /** Renews the lease, then saves. A lost lease is a failed action like any other. */
    method Heartbeat() returns (r: Result<()>)
      requires Valid()
      modifies `state, `disk, `log, `open, `mark, `time, `failedReads, `alive, `faults
      ensures Valid() && Steady()
      ensures r.Err? ==> faults > old(faults)
      ensures r.Ok? ==> disk.headSha == state.headSha && alive && Shown()
      ensures state ==
        old(state).(activity := old(state.activity).(lastHeartbeat := state.activity.lastHeartbeat))
    {
      hide Reached, Clear, HalfClear, Unclaimed, EffectiveSteps, AcceptedTags;
      var now: nat := *;
      Update(state.(activity := state.activity.(lastHeartbeat := now)));
      var _ :- Emit();
      r := SaveAndEmit();
    }

    method Show(action: Action)
      requires Valid()
      modifies `state
      ensures Valid() && Steady()
      ensures state == old(state).(activity := old(state.activity).(action := action))
    {
      hide Reached, Clear, HalfClear, Unclaimed, EffectiveSteps;
      Update(state.(activity := state.activity.(action := action)));
    }

    /** Shows the action, saves, and writes an event. */
    method Announce(action: Action) returns (r: Result<()>)
      requires Valid()
      modifies `state, `disk, `log, `open, `mark, `time, `failedReads, `alive, `faults
      ensures Valid() && Steady()
      ensures r.Err? ==> faults > old(faults)
      ensures r.Ok? ==> alive
      ensures state == old(state).(activity := state.activity)
      ensures state.activity == old(state.activity).(action := action, lastHeartbeat := state.activity.lastHeartbeat)
    {
      hide Reached, Clear, HalfClear, Unclaimed, EffectiveSteps, AcceptedTags;
      hide Valid, IsClear, IsHalfClear, IsUnclaimed, Effective, StopRequested, Effects;
      Show(action);
      r := SaveAndEmit();
    }

    /** Shows the action with a heartbeat. */
    method Report(action: Action) returns (r: Result<()>)
      requires Valid()
      modifies `state, `disk, `log, `open, `mark, `time, `failedReads, `alive, `faults
      ensures Valid() && Steady()
      ensures r.Err? ==> faults > old(faults)
      ensures r.Ok? ==> disk.headSha == state.headSha && alive && Shown()
      ensures state == old(state).(activity := state.activity)
      ensures state.activity == old(state.activity).(action := action, lastHeartbeat := state.activity.lastHeartbeat)
    {
      hide Reached, Clear, HalfClear, Unclaimed, EffectiveSteps, AcceptedTags;
      hide Valid, IsClear, IsHalfClear, IsUnclaimed, Effective, StopRequested, Effects;
      Show(action);
      r := Heartbeat();
    }

    /** Shows attempt, worker and action with a heartbeat. */
    method ReportAttempt(number: nat, worker: string, action: Action) returns (r: Result<()>)
      requires Valid()
      modifies `state, `disk, `log, `open, `mark, `time, `failedReads, `alive, `faults
      ensures Valid() && Steady()
      ensures r.Err? ==> faults > old(faults)
      ensures state == old(state).(activity := state.activity)
      ensures state.activity.attempt == number && state.activity.worker == Some(worker)
      ensures state.activity.action == action
    {
      hide Reached, Clear, HalfClear, Unclaimed, EffectiveSteps, AcceptedTags;
      Update(state.(activity := state.activity.(attempt := number, worker := Some(worker), action := action)));
      hide Valid, IsClear, IsHalfClear, IsUnclaimed, Effective, StopRequested, Effects;
      r := Heartbeat();
    }

    function StoppedBy(classification: FailureClassification): CampaignState {
      match classification
      case CampaignExpired => Expired
      case OperatorCancelled => Cancelled
      case _ => Blocked
    }

    /** Stops with the state that the classification stands for. */
    method Block(classification: FailureClassification) returns (r: Result<()>)
      requires Valid()
      modifies `state, `disk, `log, `open, `mark, `time, `failedReads, `alive, `faults
      ensures Valid() && Steady()
      ensures r.Err? ==> faults > old(faults)
      ensures r.Ok? ==> state.blockedReason == Some(classification) && disk.headSha == state.headSha
      ensures r.Ok? ==> Stopping() && Shown() && state.pauseRequested == old(state.pauseRequested)
      ensures r.Ok? ==> (state.state == Expired <==> classification == CampaignExpired)
      ensures r.Ok? ==> (state.state == Cancelled <==> classification == OperatorCancelled)
    {
      hide Reached, Clear, HalfClear, Unclaimed, EffectiveSteps, AcceptedTags;
      var now: nat := *;
      var reason: string := *;
      Update(state.(state := StoppedBy(classification), blockedReason := Some(classification),
        errorMessage := Some(reason), endTime := Some(now), activity := state.activity.(action := BlockedAction)));
      r := SaveAndEmit();
    }

    method Finish(classification: FailureClassification) returns (r: Result<()>)
      requires Valid() && (classification == CampaignExpired || classification == OperatorCancelled)
      modifies `state, `disk, `log, `open, `mark, `time, `failedReads, `alive, `faults
      ensures Valid() && Steady()
      ensures r.Err? ==> faults > old(faults)
      ensures state.pauseRequested == old(state.pauseRequested) && state.cancelRequested == old(state.cancelRequested)
      ensures state.remainingSeconds == old(state.remainingSeconds)
      ensures state.state == if classification == CampaignExpired then Expired else Cancelled
      ensures r.Ok? ==> Shown()
    {
      hide Reached, Clear, HalfClear, Unclaimed, EffectiveSteps, AcceptedTags;
      var now: nat := *;
      Update(state.(state := if classification == CampaignExpired then Expired else Cancelled,
        blockedReason := Some(classification), endTime := Some(now)));
      hide Valid, IsClear, IsHalfClear, IsUnclaimed, Effective, StopRequested, Effects;
      r := SaveAndEmit();
    }

    method StopPaused(stepId: Option<string>) returns (r: Result<()>)
      requires Valid()
      modifies `state, `disk, `log, `open, `mark, `time, `failedReads, `alive, `faults
      ensures Valid() && Steady()
      ensures r.Err? ==> faults > old(faults)
      ensures state == old(state).(state := Paused, activity := state.activity)
      ensures r.Ok? ==> Shown()
    {
      hide Reached, Clear, HalfClear, Unclaimed, EffectiveSteps, AcceptedTags;
      var shown := state.activity.(action := PausedAction,
        stepId := if stepId.Some? then stepId else state.activity.stepId);
      Update(state.(state := Paused, activity := shown));
      r := SaveAndEmit();
    }

    /** Rereads the operator's flags; a file that cannot be read leaves the old ones. */
    method ReadFlags() returns (r: Result<()>)
      requires Valid()
      modifies `state, `disk, `log, `mark, `time, `failedReads, `alive, `faults
      ensures Valid() && Steady()
      ensures r.Err? ==> faults > old(faults)
      ensures r.Ok? && !state.pauseRequested && !state.cancelRequested ==>
        IsHalfClear() && (old(IsHalfClear()) ==> IsClear())
      ensures state == old(state).(pauseRequested := state.pauseRequested, cancelRequested := state.cancelRequested)
    {
      hide Stopping, Shown, Revisable, AcceptedTags, Effects, CancelShows;
      hide Reached, Clear, HalfClear, Unclaimed, EffectiveSteps;
      Interfere();
      var failed := Fault();
      if !alive {
        return Err(false);
      }
      if failed {
        FailedReadStep(campaign, start, Now());
        failedReads := failedReads + 1;
      } else {
        ReadStep(campaign, start, Now());
        state := state.(pauseRequested := disk.pauseRequested, cancelRequested := disk.cancelRequested);
      }
      return Ok(());
    }

    method RefreshBudget()
      requires Valid()
      modifies `clock, `state
      ensures Valid() && Steady()
      ensures state == old(state).(remainingSeconds := state.remainingSeconds)
      ensures clock == time
      ensures state.remainingSeconds == 0 <==> clock >= state.startTime + campaign.limits.maxRuntimeSeconds
      ensures clock >= state.startTime && state.remainingSeconds > 0 ==>
        clock + state.remainingSeconds == state.startTime + campaign.limits.maxRuntimeSeconds
      ensures clock < state.startTime ==> state.remainingSeconds == campaign.limits.maxRuntimeSeconds
    {
      hide Reached, Clear, HalfClear, Unclaimed, EffectiveSteps;
      hide Valid, IsClear, IsHalfClear, IsUnclaimed, Effective, StopRequested, Effects;
      StartKept();
      clock := time;
      var elapsed := if time < state.startTime then 0 else time - state.startTime;
      var limit := campaign.limits.maxRuntimeSeconds;
      Update(state.(remainingSeconds := if elapsed > limit then 0 else limit - elapsed));
    }

    /** What a checkpoint that does not let the run continue has decided. */
    function StopState(status: CampaignStatus): Option<CampaignState> {
      if status.cancelRequested then Some(Cancelled)
      else if status.remainingSeconds == 0 then Some(Expired)
      else if status.pauseRequested then Some(Paused)
      else None
    }

    /** The operator's flags, the budget and the lease, before a checkpoint decides. */
    method Reread() returns (r: Result<()>)
      requires Valid()
      modifies `clock, `state, `disk, `log, `open, `mark, `time, `failedReads, `alive, `faults
      ensures Valid() && Steady()
      ensures r.Err? ==> faults > old(faults)
      ensures r.Ok? && !state.pauseRequested && !state.cancelRequested ==>
        IsHalfClear() && (old(IsHalfClear()) ==> IsClear())
      ensures r.Ok? ==> (state.remainingSeconds == 0 <==> !IsTimely())
      ensures state.state == old(state.state) && state.activity.worker == old(state.activity.worker)
    {
      hide Reached, Clear, HalfClear, Unclaimed, EffectiveSteps, AcceptedTags;
      hide Valid, IsClear, IsHalfClear, IsUnclaimed, Effective, StopRequested, Effects;
      var _ :- ReadFlags();
      RefreshBudget();
      r := Heartbeat();
    }

    /** A checkpoint that stops: cancelled before expired before paused. */
    method StopHere(stepId: Option<string>) returns (r: Result<()>)
      requires Valid() && StopState(state).Some?
      modifies `state, `disk, `log, `open, `mark, `time, `failedReads, `alive, `faults
      ensures Valid() && Steady()
      ensures r.Err? ==> faults > old(faults)
      ensures StopState(state) == old(StopState(state)) == Some(state.state)
      ensures state.pauseRequested == old(state.pauseRequested)
      ensures r.Ok? ==> Shown()
    {
      hide Reached, Clear, HalfClear, Unclaimed, EffectiveSteps, AcceptedTags;
      hide Valid, IsClear, IsHalfClear, IsUnclaimed, Effective, StopRequested, Effects;
      if state.cancelRequested {
        r := Finish(OperatorCancelled);
      } else if state.remainingSeconds == 0 {
        r := Finish(CampaignExpired);
      } else {
        r := StopPaused(stepId);
      }
    }

    /** `checkpoint` and `recovery_checkpoint`: does the run stop here? */
    method Checkpoint(stepId: Option<string>) returns (r: Result<bool>)
      requires Valid()
      modifies `clock, `state, `disk, `log, `open, `mark, `time, `failedReads, `alive, `faults
      ensures Valid() && Steady()
      ensures r.Err? ==> faults > old(faults)
      ensures r.Ok? ==> r.value == StopState(state).Some?
      ensures r == Ok(true) ==> AtCheckpoint() && Shown()
      ensures r == Ok(false) ==> state.state == old(state.state) && state.activity.worker == old(state.activity.worker)
      ensures r == Ok(true) && state.cancelRequested ==> state.state == Cancelled
      ensures r == Ok(true) && !state.cancelRequested && !IsTimely() ==> state.state == Expired
      ensures r == Ok(true) && !state.cancelRequested && IsTimely() ==> state.state == Paused && state.pauseRequested
      ensures r == Ok(false) ==> !state.cancelRequested && !state.pauseRequested && IsTimely()
      ensures r == Ok(false) ==> IsHalfClear() && (old(IsHalfClear()) ==> IsClear())
    {
      hide Reached, Clear, HalfClear, Unclaimed, EffectiveSteps, AcceptedTags;
      hide Valid, IsClear, IsHalfClear, IsUnclaimed, Effective, StopRequested, Effects;
      var _ :- Reread();
      if StopState(state).None? {
        return Ok(false);
      }
      var _ :- StopHere(stepId);
      return Ok(true);
    }

    // -------------------------------------------------------------- git

    /** The paths git reports as changed, once HEAD is known to be the recorded one. */
    method SnapshotChecked() returns (r: Result<seq<string>>)
      requires Valid()
      modifies `alive, `faults
      ensures r.Ok? ==> AtHead() && alive
      ensures r.Err? && AtHead() ==> faults > old(faults)
      ensures Tallied() && (!old(alive) ==> !alive)
    {
      var _ :- Emit();
      var changedPaths: seq<string> := *;
      if HeadOf(campaign.baseSha, branch) != state.headSha {
        return Err(false);
      }
      return Ok(changedPaths);
    }

    // -------------------------------------------------------------- recording attempts

    /** `launch` is the attempt that the next record of `step` will be about. */
    ghost predicate Ready(i: nat, step: CampaignStep, launch: Launch)
      reads `state, `log
    {
      && AtStep(i, step)
      && launch.number == TotalAttempts(state.steps) + 1 <= campaign.limits.maxTotalAttempts
      && KindTied(step.kind, launch.Record(Reject(NoChange), None))
      && Assigned(campaign.policy, launch.Record(Reject(NoChange), None))
    }

    /** The attempts recorded on step `i`. */
    ghost function AttemptsOf(i: nat): seq<StepAttempt>
      reads `state
    {
      if i < |state.steps| then state.steps[i].attempts else []
    }

    method PersistAttempt(ghost i: nat, step: CampaignStep, launch: Launch, verdict: CoordinatorVerdict,
                          commit: Option<Sha>)
      returns (r: Result<()>)
      requires Valid() && Ready(i, step, launch)
      modifies `state, `disk, `log, `open, `mark, `time, `failedReads, `alive, `faults
      ensures Valid() && Calm() && AtStep(i, step)
      ensures state == old(state).(steps := state.steps)
      ensures r.Err? ==> faults > old(faults)
      ensures OnlyAt(i, old(state.steps), state.steps)
      ensures AppendsAtMost(old(AttemptsOf(i)), AttemptsOf(i), launch)
      ensures r.Ok? ==> Appends(old(AttemptsOf(i)), AttemptsOf(i), launch)
      ensures r.Ok? ==> Records(AttemptsOf(i), verdict, commit)
      ensures r.Ok? ==> state.steps == WithAttempt(old(state.steps), i, launch.Record(verdict, commit),
                          DispositionAfter(verdict, old(state.steps[i].disposition)))
      ensures r.Ok? ==> Shown()
    {
      hide Heeding, Stopping, Shown, Active, DispositionAfter, KindTied, Assigned;
      hide Reached, Clear, HalfClear, Unclaimed, EffectiveSteps, AcceptedTags, TotalAttempts;
      hide Appends, Records;
      assert i < |state.steps| by { CurrentIsOpen(state.steps, i); }
      RecordAppends(state.steps, i, launch, verdict, commit,
        DispositionAfter(verdict, state.steps[i].disposition));
      var _ :- Emit();
      RecordAttempt(i, step, launch, verdict, commit);
      r := SaveAndEmit();
    }

    lemma FoundRecord(stepId: string, i: nat)
      requires Valid() && i < |state.steps| && state.steps[i].stepId == stepId
      ensures FindIndex(state.steps, stepId) == Some(i)
    {
      RecordOf(campaign, start, Now(), i);
      RecordIndex(campaign, start, Now(), i, FindIndex(state.steps, stepId).value);
    }

    method RecordAttempt(ghost i: nat, step: CampaignStep, launch: Launch, verdict: CoordinatorVerdict,
                         commit: Option<Sha>)
      requires Valid() && Ready(i, step, launch)
      modifies `state
      ensures Valid() && Calm() && AtStep(i, step)
      ensures state == old(state).(steps := state.steps)
      ensures state.steps == WithAttempt(old(state.steps), i, launch.Record(verdict, commit),
                DispositionAfter(verdict, old(state.steps[i].disposition)))
    {
      hide Reached, Clear, HalfClear, Unclaimed, EffectiveSteps, AcceptedTags, TotalAttempts;
      CurrentIsOpen(state.steps, i);
      FoundRecord(step.id, i);
      var index := FindIndex(state.steps, step.id).value;
      var after := DispositionAfter(verdict, state.steps[index].disposition);
      var attempt := launch.Record(verdict, commit);
      NextDisposition(i, attempt);
      AttemptStep(campaign, start, Now(), i, attempt, after);
      state := state.(steps := WithAttempt(state.steps, index, attempt, after));
    }

    lemma NextDisposition(i: nat, attempt: StepAttempt)
      requires Valid() && i < |state.steps| && !IsAccepted(state.steps[i])
      ensures DispositionOf(state.steps[i].attempts + [attempt]) ==
        match attempt.disposition
        case Accepted => state.steps[i].disposition
        case RejectedTerminal => StepBlocked
        case RejectedRetryable => StepRejected
    {
      MemorySound(campaign, Now());
      hide Valid;
      assert Sound(state.steps[i]);
      var attempts := state.steps[i].attempts + [attempt];
      assert attempts[..|attempts| - 1] == state.steps[i].attempts;
    }

    /** A step is accepted: a verification where the worktree is, an implementation with the
        commit that is still waiting for its owner. */
    ghost predicate Claims(i: nat, step: CampaignStep, commit: Option<Sha>)
      reads `disk, `log, `branch, `state, `open, `orphans, `calls, `mark, `failedReads
    {
      && AtStep(i, step)
      && LastAccepted(state.steps[i], commit)
      && match commit
         case None => step.kind == Verification && AtHead()
         case Some(sha) =>
           && step.kind == Implementation
           && InWindow(Now(), sha, step.id)
    }

    method MarkStepAccepted(ghost i: nat, step: CampaignStep, commit: Option<Sha>) returns (r: Result<()>)
      requires Valid() && Claims(i, step, commit)
      modifies `state, `disk, `log, `open, `mark, `time, `failedReads, `alive, `faults
      ensures Valid() && Tallied() && Requested() && Onward() && (!old(alive) ==> !alive)
      ensures old(Effective()) <= Effective() && state.state == old(state.state)
      ensures r.Err? ==> faults > old(faults)
      ensures state.steps == WithAccepted(old(state.steps), i, commit) && (open ==> old(open))
      ensures r.Ok? && commit.Some? ==> !open
    {
      hide Reached, Clear, HalfClear, Unclaimed, EffectiveSteps, AcceptedTags, TotalAttempts, Current, InWindow;
      CurrentIsOpen(state.steps, i);
      FoundRecord(step.id, i);
      var index := FindIndex(state.steps, step.id).value;
      ghost var before := Now();
      assert before.disk == disk;
      AcceptStep(campaign, start, Now(), i, commit);
      state := state.(steps := WithAccepted(state.steps, index, commit));
      assert Now() == AfterAccept(before, i, commit);
      var now: nat := *;
      Update(state.(activity := state.activity.(lastProgress := now)));
      r := Save();
    }

    // -------------------------------------------------------------- calling the implementer

    /** Starts one implementer call. The container it runs in reports to the status meanwhile. */
    method CallImplementer(worker: string) returns (result: ImplementResult)
      requires Valid() && IsClear() && IsTimely() && IsWorker(worker)
      requires Asking(worker)
      modifies `disk, `log, `mark, `time, `failedReads, `alive, `faults, `calls
      ensures Valid() && state == old(state) && branch == old(branch) && open == old(open)
      ensures old(Effective()) <= Effective() && (old(IsUnclaimed()) ==> IsUnclaimed())
      ensures Tallied() && (!old(alive) ==> !alive)
      ensures calls == old(calls) + [Call(worker, clock)] && Requested() && Onward()
      ensures old(StopRequested(disk)) ==> Effects(Now()) == old(Effects(Now())) + 1
    {
      hide Reached, Unclaimed, CallFits, EffectiveSteps, AcceptedTags, Clear, HalfClear;
      TimelyCall(worker);
      EffectStep(campaign, start, Now(), Call(worker, clock));
      calls := calls + [Call(worker, clock)];
      Interfere();
      var _ := Emit();
      result := *;
    }

    predicate IsWorker(worker: string) {
      worker == campaign.policy.primary || worker == campaign.policy.fallback
    }

    lemma TimelyCall(worker: string)
      requires Valid() && IsTimely() && IsWorker(worker)
      ensures CallFits(campaign, disk, Call(worker, clock))
    {
      StartKept();
      hide Valid;
    }

    lemma StartKept()
      requires Valid()
      ensures state.startTime == disk.startTime && campaign.limits.maxRuntimeSeconds > 0
    {
      hide EffectiveSteps, Lawful, Durable, Accounted, Agrees, BranchSound, StepsPermitted, DistinctCommits, Extends;
    }

    /** What was waited since `before` are recovery waits, in order and within bounds. */
    ghost predicate Waited(before: seq<Sleep>)
      reads `sleeps
    {
      before <= sleeps && Bounded(sleeps[|before|..], recovery)
    }

    method Wait(ghost before: seq<Sleep>, attempts: nat, elapsed: nat)
      requires Waited(before) && |sleeps| + 1 == |before| + attempts
      requires attempts < recovery.maxAttempts && elapsed < recovery.maxWaitSeconds
      modifies `sleeps
      ensures Waited(before) && |sleeps| == |before| + attempts
    {
      hide DelaySeconds;
      ghost var waits := sleeps[|before|..];
      AppendWait(waits, recovery.retryDelays, recovery.maxWaitSeconds, elapsed);
      sleeps := sleeps + [Sleep(DelaySeconds(recovery.retryDelays, attempts), elapsed)];
      assert sleeps[|before|..] == waits + [sleeps[|sleeps| - 1]];
    }

    /** Waits once between two checkpoints. `Ok(true)` stops. */
    method WaitBetweenCheckpoints(ghost before: seq<Sleep>, attempts: nat, elapsed: nat) returns (r: Result<bool>)
      requires Valid()
      requires Waited(before) && |sleeps| + 1 == |before| + attempts
      requires attempts < recovery.maxAttempts && elapsed < recovery.maxWaitSeconds
      modifies `clock, `state, `disk, `log, `open, `mark, `time, `failedReads, `alive, `faults, `sleeps
      ensures Valid() && Steady()
      ensures r.Err? ==> faults > old(faults)
      ensures Waited(before)
      ensures r == Ok(false) ==> IsClear() && IsTimely() && |sleeps| == |before| + attempts
      ensures r == Ok(false) ==> state.state == old(state.state) && state.activity.worker == old(state.activity.worker)
      ensures r == Ok(true) ==> AtCheckpoint() && Shown()
    {
      hide Reached, Clear, HalfClear, Unclaimed, EffectiveSteps, AcceptedTags;
      hide Valid, IsClear, IsHalfClear, IsUnclaimed, Effective, StopRequested, Effects, Waited, StopState;
      var stop :- Checkpoint(None);
      if stop {
        return Ok(true);
      }
      Wait(before, attempts, elapsed);
      stop :- Checkpoint(None);
      return Ok(stop);
    }

    /** Waits once after a transport failure, unless the bounds are used up. `Ok(true)` stops. */
    method RecoverAfterTransient(ghost before: seq<Sleep>, attempts: nat, startedAt: nat) returns (r: Result<bool>)
      requires Valid() && attempts >= 1
      requires Waited(before) && |sleeps| + 1 == |before| + attempts
      modifies `clock, `state, `disk, `log, `open, `mark, `time, `failedReads, `alive, `faults, `sleeps
      ensures Valid() && Steady()
      ensures r == Ok(false) ==> state.state == old(state.state)
      ensures r.Err? ==> faults > old(faults)
      ensures Waited(before)
      ensures r == Ok(false) ==> IsClear() && IsTimely()
      ensures r == Ok(false) ==> |sleeps| == |before| + attempts && attempts < recovery.maxAttempts
      ensures r == Ok(true) ==> Shown() && (Blamed(ModelUnavailable) || AtCheckpoint())
      ensures r == Ok(false) && old(state.activity.worker).Some? ==> Asking(old(state.activity.worker).value)
    {
      hide Reached, Clear, HalfClear, Unclaimed, EffectiveSteps, AcceptedTags;
      hide Valid, IsClear, IsHalfClear, IsUnclaimed, Effective, StopRequested, Effects, Waited, StoppedBy;
      var now: nat := *;
      var elapsed := if now < startedAt then 0 else now - startedAt;
      if attempts >= recovery.maxAttempts || elapsed >= recovery.maxWaitSeconds {
        var _ :- Block(ModelUnavailable);
        return Ok(true);
      }
      var _ :- Announce(DependencyRecoveryWait);
      var stop :- WaitBetweenCheckpoints(before, attempts, elapsed);
      if stop {
        return Ok(true);
      }
      var _ :- Announce(ModelRequest);
      return Ok(false);
    }

    /** Bookkeeping that also survives an implementer call: a checkpoint may have become due. */
    twostate predicate Working()
      reads `faults, `alive, `disk, `log, `branch, `state, `open, `orphans, `calls, `mark, `failedReads
    {
      && Requested()
      && (old(IsUnclaimed()) ==> IsUnclaimed())
      && (open ==> old(open))
      && state.headSha == old(state.headSha) && state.steps == old(state.steps)
      && state.startTime == old(state.startTime)
      && old(Effective()) <= Effective()
      && Tallied() && Onward()
      && (!old(alive) ==> !alive)
    }

    /** One request to the implementer, between its two events. */
    method Request(worker: string) returns (r: Result<ImplementResult>)
      requires Valid() && IsClear() && IsTimely() && IsWorker(worker)
      requires Asking(worker)
      modifies `disk, `log, `mark, `time, `failedReads, `alive, `faults, `calls
      ensures Valid() && Working()
      ensures r.Err? ==> faults > old(faults)
      ensures CallsBy(old(calls), calls, worker, 1) && (r.Ok? ==> |calls| == |old(calls)| + 1)
      ensures state == old(state)
    {
      hide Reached, Clear, HalfClear, Unclaimed, EffectiveSteps, AcceptedTags;
      hide Valid, IsClear, IsHalfClear, IsUnclaimed, Effective, StopRequested, Effects;
      var _ :- Emit();
      var result := CallImplementer(worker);
      var _ :- Emit();
      return Ok(result);
    }

    /** The bounded retry loop around the implementer; `Ok(None)` stopped. */
    method ImplementWithRetries(worker: string) returns (r: Result<Option<ImplementResult>>)
      requires Valid() && IsClear() && IsTimely() && IsWorker(worker)
      requires Asking(worker)
      modifies `clock, `state, `disk, `log, `open, `mark, `time, `failedReads, `alive, `faults, `calls, `sleeps
      ensures Valid() && Working()
      ensures r.Ok? && r.value.Some? ==> state.state == old(state.state)
      ensures r.Err? ==> faults > old(faults)
      ensures CallsBy(old(calls), calls, worker, CallsPerAttempt())
      ensures Waited(old(sleeps))
      ensures r.Ok? && r.value.None? ==> Shown() && (Blamed(ModelUnavailable) || AtCheckpoint())
      ensures r.Ok? && r.value.Some? ==> !FailedInTransport(r.value.value)
    {
      hide Reached, Clear, HalfClear, Unclaimed, EffectiveSteps, AcceptedTags, Waited;
      hide Valid, IsClear, IsHalfClear, IsUnclaimed, Effective, StopRequested, Effects;
      var startedAt: nat := *;
      var attempts := 0;
      NoWaits();
      while true
        invariant Valid() && Working() && IsClear() && IsTimely() && state.state == old(state.state) && Asking(worker)
        invariant CallsBy(old(calls), calls, worker, attempts) && attempts < CallsPerAttempt()
        invariant Waited(old(sleeps)) && |sleeps| == |old(sleeps)| + attempts
        decreases CallsPerAttempt() - attempts
      {
        var result :- Request(worker);
        if result.workerError.None? || !result.workerError.value.transport {
          return Ok(Some(result));
        }
        attempts := attempts + 1;
        var stop :- RecoverAfterTransient(old(sleeps), attempts, startedAt);
        if stop {
          return Ok(None);
        }
      }
    }

    predicate FailedInTransport(result: ImplementResult) {
      result.workerError.Some? && result.workerError.value.transport
    }

    lemma NoWaits()
      ensures Waited(sleeps)
    {
    }

    function CallsPerAttempt(): nat {
      if recovery.maxAttempts > 1 then recovery.maxAttempts else 1
    }

    /** The bounded wait for a worker endpoint. `Ok(None)` stopped, else whether it waited. */
    method RecoverWorkerHealth() returns (r: Result<Option<bool>>)
      requires Valid()
      modifies `clock, `state, `disk, `log, `open, `mark, `time, `failedReads, `alive, `faults, `sleeps
      ensures Valid() && Steady()
      ensures r.Err? ==> faults > old(faults)
      ensures Waited(old(sleeps))
      ensures r.Ok? && r.value.Some? ==> (r.value.value <==> sleeps != old(sleeps))
      ensures r.Ok? && r.value.Some? ==> state.state == old(state.state) && (old(IsTimely()) ==> IsTimely())
      ensures r.Ok? && r.value.None? ==> Shown() && (Blamed(ModelUnavailable) || AtCheckpoint())
    {
      hide Reached, Clear, HalfClear, Unclaimed, EffectiveSteps, AcceptedTags;
      hide Valid, IsClear, IsHalfClear, IsUnclaimed, Effective, StopRequested, Effects, Waited, StoppedBy;
      var startedAt: nat := *;
      var attempts := 0;
      NoWaits();
      while true
        invariant Valid() && Steady()
        invariant state.state == old(state.state) && (old(IsTimely()) ==> IsTimely())
        invariant Waited(old(sleeps)) && |sleeps| == |old(sleeps)| + attempts
        invariant attempts == 0 ==> sleeps == old(sleeps)
        invariant attempts > 0 ==> attempts < recovery.maxAttempts
        decreases recovery.maxAttempts - attempts
      {
        var healthy: bool := *;
        if healthy {
          return Ok(Some(attempts > 0));
        }
        attempts := attempts + 1;
        var now: nat := *;
        var elapsed := if now < startedAt then 0 else now - startedAt;
        if attempts >= recovery.maxAttempts || elapsed >= recovery.maxWaitSeconds {
          var _ :- Block(ModelUnavailable);
          return Ok(None);
        }
        var _ :- Announce(DependencyRecoveryWait);
        var stop :- WaitBetweenCheckpoints(old(sleeps), attempts, elapsed);
        if stop {
          return Ok(None);
        }
      }
    }

    // -------------------------------------------------------------- judging an attempt

    method ReviewAgain() returns (saved: bool)
      requires Valid()
      modifies `state, `disk, `log, `open, `mark, `time, `failedReads, `alive, `faults
      ensures Valid() && Steady()
      ensures state.state == old(state.state)
    {
      hide Reached, Clear, HalfClear, Unclaimed, EffectiveSteps, AcceptedTags;
      hide Valid, IsClear, IsHalfClear, IsUnclaimed, Effective, StopRequested, Effects;
      Show(CoordinatorReview);
      var r := Save();
      return r.Ok?;
    }

    /** What happens between two reviewer calls; `false` fails the review. */
    method WaitForReviewer() returns (again: bool, ghost slept: bool)
      requires Valid()
      modifies `clock, `state, `disk, `log, `open, `mark, `time, `failedReads, `alive, `faults
      ensures Valid() && Steady()
      ensures again ==> state.state == old(state.state)
      ensures again ==> slept
    {
      hide Reached, Clear, HalfClear, Unclaimed, EffectiveSteps, AcceptedTags;
      hide Valid, IsClear, IsHalfClear, IsUnclaimed, Effective, StopRequested, Effects, StopState;
      var told := Announce(ReviewRetryWait);
      if told.Err? {
        return false, false;
      }
      var stop := Checkpoint(None);
      if stop != Ok(false) {
        return false, false;
      }
      stop := Checkpoint(None);
      again := stop == Ok(false);
      if again {
        again := ReviewAgain();
      }
      return again, true;
    }

    /** The model reviewer is asked again only after a timeout; without an answer of its own the
        review fails closed. */
    method ReviewWithRetries()
      returns (verdict: CoordinatorVerdict, ghost waits: seq<nat>, ghost asked: nat, ghost answered: bool)
      requires Valid()
      modifies `clock, `state, `disk, `log, `open, `mark, `time, `failedReads, `alive, `faults
      ensures Valid() && Steady()
      ensures answered ==> state.state == old(state.state)
      ensures waits <= [2, 5] && 1 <= asked <= 3 && |waits| <= asked
      ensures !answered ==> verdict == Terminate(ReviewerTimeout) || verdict == Terminate(ReviewerFailure)
      ensures verdict == Terminate(ReviewerTimeout) && !answered ==> asked == 3
    {
      hide Reached, Clear, HalfClear, Unclaimed, EffectiveSteps, AcceptedTags;
      hide Valid, IsClear, IsHalfClear, IsUnclaimed, Effective, StopRequested, Effects;
      var attempts := 0;
      waits, asked, answered := [], 0, false;
      while true
        invariant Valid() && Steady() && state.state == old(state.state)
        invariant attempts == asked < REVIEWER_MAX_ATTEMPTS && waits == REVIEWER_DELAYS[..attempts] && !answered
        decreases REVIEWER_MAX_ATTEMPTS - attempts
      {
        attempts := attempts + 1;
        asked := asked + 1;
        var replies: bool := *;
        if replies {
          verdict := *;
          answered := true;
          return;
        }
        var timeout: bool := *;
        if !timeout || attempts >= REVIEWER_MAX_ATTEMPTS {
          verdict := Terminate(if timeout then ReviewerTimeout else ReviewerFailure);
          return;
        }
        var again;
        ghost var slept;
        again, slept := WaitForReviewer();
        if slept {
          waits := waits + [DelaySeconds(REVIEWER_DELAYS, attempts)];
        }
        if !again {
          verdict := Terminate(ReviewerFailure);
          return;
        }
      }
    }

    /** `plan_retry_from_failure` */
    method PlanRetry(verdict: CoordinatorVerdict, last: Option<string>, lastCount: nat, fallbackLeft: nat)
      returns (r: Result<Plan>)
      requires Valid()
      modifies `state, `disk, `log, `open, `mark, `time, `failedReads, `alive, `faults
      ensures Valid() && Steady()
      ensures state.state == old(state.state)
      ensures r.Err? ==> faults > old(faults)
      ensures r.Ok? ==> Planned(r.value, verdict, hasReasoner, last, lastCount, fallbackLeft)
    {
      hide Reached, Clear, HalfClear, Unclaimed, EffectiveSteps, AcceptedTags;
      hide Valid, IsClear, IsHalfClear, IsUnclaimed, Effective, StopRequested, Effects, Planned, DefaultPlan;
      hide DiagnosedPlan, ShouldDiagnose, Repeats;
      var classification := Classified(verdict);
      var fingerprint: string := *;
      var repeated := Repeats(fingerprint, last, lastCount);
      if !ShouldDiagnose(classification, repeated) || !hasReasoner {
        DefaultIsPlanned(verdict, fingerprint, hasReasoner, last, lastCount, fallbackLeft);
        return Ok(DefaultPlan(verdict, fingerprint, repeated));
      }
      var _ :- Report(RecoveryDiagnosis);
      var _ :- Emit();
      var answer: Option<Decision> := *;
      DiagnosedIsPlanned(verdict, fingerprint, answer, hasReasoner, last, lastCount, fallbackLeft);
      var plan := DiagnosedPlan(verdict, fingerprint, repeated, answer, fallbackLeft);
      var _ :- Emit();
      return Ok(plan);
    }

    /** Everything between the acceptance commands and the decision to commit. */
    method JudgeAttempt(input: ReviewInput, last: Option<string>, lastCount: nat, fallbackLeft: nat)
      returns (r: Result<(CoordinatorVerdict, Option<Plan>)>, ghost reviewed: CoordinatorVerdict)
      requires Valid()
      modifies `clock, `state, `disk, `log, `open, `mark, `time, `failedReads, `alive, `faults
      ensures Valid() && Steady()
      ensures r.Ok? && r.value.0.disposition != RejectedTerminal ==> state.state == old(state.state)
      ensures r.Err? ==> faults > old(faults)
      ensures r.Ok? ==> Judged(input, last, lastCount, fallbackLeft, r.value.0, r.value.1)
      ensures r.Ok? ==>
        Concluded(input, hasReviewer, hasReasoner, last, lastCount, fallbackLeft, reviewed, r.value.0, r.value.1)
    {
      hide Reached, Clear, HalfClear, Unclaimed, EffectiveSteps, AcceptedTags, Planned, ReviewAttempt;
      hide Valid, IsClear, IsHalfClear, IsUnclaimed, Effective, StopRequested, Effects;
      var verdict := ReviewAttempt(input);
      reviewed := verdict;
      var previous, count := last, lastCount;
      if verdict.disposition == Accepted {
        if hasReviewer {
          ghost var waits, asked, answered;
          verdict, waits, asked, answered := ReviewWithRetries();
          var _ :- Emit();
        }
        previous, count := None, 0;
      }
      reviewed := verdict;
      if verdict.disposition == RejectedRetryable {
        var plan :- PlanRetry(verdict, previous, count, fallbackLeft);
        PlanMeans(plan, verdict, hasReasoner, previous, count, fallbackLeft);
        return Ok((Demoted(plan.verdict), Some(plan))), reviewed;
      }
      return Ok((verdict, None)), reviewed;
    }

    // -------------------------------------------------------------- acceptance commands

    /** Runs every command in order whatever the earlier ones did. A malformed command is an error;
        `Err(true)` means that the executor itself is gone. */
    method RunCommands(step: CampaignStep) returns (r: Result<bool>, ghost results: seq<bool>)
      requires Valid()
      modifies `disk, `log, `mark, `time, `failedReads, `alive, `faults
      ensures Valid() && Steady()
      ensures r.Ok? ==> |results| == |step.commands| && (r.value <==> false !in results)
    {
      hide Reached, Clear, HalfClear, Unclaimed, EffectiveSteps, AcceptedTags;
      hide Valid, IsClear, IsHalfClear, IsUnclaimed, Effective, StopRequested, Effects;
      results := [];
      var succeeded := true;
      for n := 0 to |step.commands|
        invariant Valid() && Steady()
        invariant |results| == n && (succeeded <==> false !in results)
      {
        Interfere();
        var wellFormed: bool := *;
        if !wellFormed {
          return Err(false), results;
        }
        var passes: bool := *;
        var reached := Emit();
        if reached.Err? && reached.executor {
          return Err(true), results;
        }
        succeeded := succeeded && passes && reached.Ok?;
        results := results + [passes && reached.Ok?];
      }
      return Ok(succeeded), results;
    }

    /** Reads every required artifact; one whose path does not parse is an error. */
    method ReadArtifacts(step: CampaignStep) returns (r: Result<bool>, ghost missing: seq<string>)
      requires Valid()
      modifies `disk, `log, `mark, `time, `failedReads, `alive, `faults
      ensures Valid() && Steady()
      ensures r.Ok? ==> (r.value <==> missing == [])
      ensures forall artifact :: artifact in missing ==> artifact in step.requiredArtifacts
      ensures r.Ok? ==> forall k :: 0 <= k < |step.requiredArtifacts| ==> WorkspacePath(step.requiredArtifacts[k]).Ok?
    {
      hide Reached, Clear, HalfClear, Unclaimed, EffectiveSteps, AcceptedTags, WorkspacePath;
      hide Valid, IsClear, IsHalfClear, IsUnclaimed, Effective, StopRequested, Effects;
      missing := [];
      var complete := true;
      for n := 0 to |step.requiredArtifacts|
        invariant Valid() && Steady()
        invariant complete <==> missing == []
        invariant forall k :: 0 <= k < n ==> WorkspacePath(step.requiredArtifacts[k]).Ok?
        invariant forall artifact :: artifact in missing ==> artifact in step.requiredArtifacts
      {
        Interfere();
        var reached := Emit();
        if WorkspacePath(step.requiredArtifacts[n]).Err? {
          return Err(false), missing;
        }
        if reached.Err? && reached.executor {
          return Err(true), missing;
        }
        if reached.Err? {
          missing := missing + [step.requiredArtifacts[n]];
          complete := false;
        }
      }
      return Ok(complete), missing;
    }

    /** The commands, then the artifacts; what succeeded, and whether an artifact is missing. */
    method RunAcceptance(step: CampaignStep)
      returns (r: Result<(bool, bool)>, ghost results: seq<bool>, ghost missing: seq<string>)
      requires Valid()
      modifies `disk, `log, `mark, `time, `failedReads, `alive, `faults
      ensures Valid() && Steady()
      ensures r.Ok? ==> |results| == |step.commands|
      ensures r.Ok? ==> (r.value.0 <==> false !in results && missing == [])
      ensures r.Ok? ==> (r.value.1 <==> missing != [])
      ensures forall artifact :: artifact in missing ==> artifact in step.requiredArtifacts
    {
      hide Reached, Clear, HalfClear, Unclaimed, EffectiveSteps, AcceptedTags;
      hide Valid, IsClear, IsHalfClear, IsUnclaimed, Effective, StopRequested, Effects;
      missing := [];
      var ran, read;
      ran, results := RunCommands(step);
      var succeeded :- ran;
      read, missing := ReadArtifacts(step);
      var complete :- read;
      return Ok((succeeded && complete, !complete)), results, missing;
    }

    /** Runs the acceptance commands; without an executor the run is blocked, `Ok(None)`. */
    method Accept(step: CampaignStep)
      returns (r: Result<Option<(bool, bool)>>, ghost results: seq<bool>, ghost missing: seq<string>)
      requires Valid()
      modifies `state, `disk, `log, `open, `mark, `time, `failedReads, `alive, `faults
      ensures Valid() && Steady()
      ensures r.Ok? && r.value.Some? ==> state.state == old(state.state)
      ensures r.Ok? && r.value.Some? ==> |results| == |step.commands|
      ensures r.Ok? && r.value.Some? ==> (r.value.value.0 <==> false !in results && missing == [])
      ensures r.Ok? && r.value.Some? ==> (r.value.value.1 <==> missing != [])
      ensures r.Ok? && r.value.None? ==> Blamed(ExecutorUnavailable) && Shown()
      ensures r.Err? ==> faults > old(faults) || state.state == old(state.state)
    {
      hide Reached, Clear, HalfClear, Unclaimed, EffectiveSteps, AcceptedTags;
      hide Valid, IsClear, IsHalfClear, IsUnclaimed, Effective, StopRequested, Effects, StoppedBy;
      var outcome;
      outcome, results, missing := RunAcceptance(step);
      if outcome == Err(true) {
        var _ :- Block(ExecutorUnavailable);
        return Ok(None), results, missing;
      }
      var ran :- outcome;
      return Ok(Some(ran)), results, missing;
    }

    // -------------------------------------------------------------- committing

    /** `commit_local`, then `current_head`. Git refuses an empty commit and makes fresh ids. */
    method CommitLocal(ghost i: nat, step: CampaignStep, changed: seq<string>) returns (r: Result<Sha>)
      requires Valid() && IsClear() && IsTimely() && AtHead() && disk.headSha == state.headSha && !open
      requires i < |Effective()| && Effective()[i] == step
      requires MayCommit(step, changed)
      modifies `disk, `log, `branch, `state, `open, `mark, `time, `failedReads, `alive, `faults
      ensures Valid() && state == old(state).(headSha := state.headSha)
      ensures old(Effective()) <= Effective()
      ensures Tallied() && Requested() && Onward() && (!old(alive) ==> !alive)
      ensures r.Ok? && old(StopRequested(disk)) ==> Effects(Now()) == old(Effects(Now())) + 1
      ensures r.Ok? ==> InWindow(Now(), r.value, step.id) && alive
      ensures r.Err? && open ==> faults > old(faults)
      ensures r.Err? ==> state.state == old(state.state)
    {
      hide Reached, Clear, HalfClear, EffectiveSteps, AcceptedTags, MayCommit, Unclaimed, InWindow, CommitAuthorized;
      Interfere();
      var _ :- Emit();
      var sha: Sha := *;
      if !FreshSha(campaign.baseSha, branch, sha) {
        return Err(false);
      }
      FittingCommit(i, step, Commit(sha, step.id, changed, clock));
      StartKept();
      r := MakeCommit(Commit(sha, step.id, changed, clock));
    }

    /** The commit itself, after which the new head may still go unread. */
    method MakeCommit(commit: Commit) returns (r: Result<Sha>)
      requires Valid() && Committable(campaign, Now(), commit)
      modifies `branch, `state, `open, `alive, `faults
      ensures Valid() && state == old(state).(headSha := state.headSha)
      ensures |branch| == |old(branch)| + 1
      ensures faults >= old(faults) && (!old(alive) ==> !alive)
      ensures r.Ok? ==> r.value == commit.sha && InWindow(Now(), commit.sha, commit.stepId) && alive
      ensures r.Err? ==> faults > old(faults)
    {
      hide Reached, InWindow, Committable;
      MoveBranch(commit);
      ghost var before := Now();
      var _ :- Emit();
      state := state.(headSha := HeadOf(campaign.baseSha, branch));
      assert Now() == HeadRead(before);
      return Ok(commit.sha);
    }

    /** Git has made the commit; the run has not read the new head yet. */
    method MoveBranch(commit: Commit)
      requires Valid() && Committable(campaign, Now(), commit)
      modifies `branch, `open
      ensures Valid() && branch == old(branch) + [commit] && open
      ensures Reached(campaign, start, HeadRead(Now())) && InWindow(HeadRead(Now()), commit.sha, commit.stepId)
    {
      hide Reached, InWindow, Committable;
      ghost var before := Now();
      CommitStep(campaign, start, before, commit);
      branch := branch + [commit];
      open := true;
      assert Now() == AfterCommit(before, commit);
    }

    lemma FittingCommit(i: nat, step: CampaignStep, commit: Commit)
      requires Valid() && commit.stepId == step.id && MayCommit(step, commit.paths)
      requires i < |Effective()| && Effective()[i] == step
      ensures CommitAuthorized(campaign, Effective(), commit)
    {
      AllPermitted();
      hide StepsPermitted, Valid, EffectiveSteps, IsEphemeral, Authorized, RequiredPrefixSatisfied, CommitAuthorized;
      ReviewedCommitFits(campaign, Effective(), i, commit);
    }

    lemma AllPermitted()
      requires Valid()
      ensures StepsPermitted(campaign, Effective())
    {
    }

    // -------------------------------------------------------------- one attempt

    /** Work on step `i` only moves forward: nothing else changes, and a commit that is left
        without its record is the mark of a failed or interrupted action. */
    twostate predicate Advanced(i: nat)
      reads `faults, `alive, `disk, `log, `state, `open, `mark, `failedReads
    {
      && Requested()
      && OnlyAt(i, old(state.steps), state.steps)
      && old(Effective()) <= Effective()
      && Tallied() && Onward()
      && (!old(alive) ==> !alive)
      && (open ==> old(open) || faults > old(faults))
    }

    method InspectGit(action: Action) returns (r: Result<seq<string>>)
      requires Valid()
      modifies `state, `disk, `log, `open, `mark, `time, `failedReads, `alive, `faults
      ensures Valid() && Steady()
      ensures state.state == old(state.state)
      ensures r.Ok? ==> AtHead() && alive
      ensures state.activity.action == action
    {
      hide Reached, Clear, HalfClear, Unclaimed, EffectiveSteps, AcceptedTags;
      hide Valid, IsClear, IsHalfClear, IsUnclaimed, Effective, StopRequested, Effects;
      var _ :- Report(action);
      r := SnapshotChecked();
    }

    method InspectForReview() returns (r: Result<seq<string>>)
      requires Valid()
      modifies `state, `disk, `log, `open, `mark, `time, `failedReads, `alive, `faults
      ensures Valid() && Steady()
      ensures state.state == old(state.state)
    {
      hide Reached, Clear, HalfClear, Unclaimed, EffectiveSteps, AcceptedTags;
      hide Valid, IsClear, IsHalfClear, IsUnclaimed, Effective, StopRequested, Effects;
      var evidence :- SnapshotChecked();
      var _ :- Report(CoordinatorReview);
      return Ok(evidence);
    }

    /** Git evidence, acceptance commands and git evidence again; `Ok(None)` stopped. */
    method InspectAttempt(step: CampaignStep, result: ImplementResult)
      returns (r: Result<Option<ReviewInput>>, ghost evidence: Evidence)
      requires Valid()
      modifies `state, `disk, `log, `open, `mark, `time, `failedReads, `alive, `faults
      ensures Valid() && Steady()
      ensures r.Ok? && r.value.Some? ==> state.state == old(state.state)
      ensures r.Ok? && r.value.Some? ==> r.value.value.step == step && Inspected(r.value.value, result, evidence)
      ensures r.Ok? && r.value.None? ==> Blamed(ExecutorUnavailable) && Shown()
      ensures r.Err? ==> faults > old(faults) || state.state == old(state.state)
    {
      hide Reached, Clear, HalfClear, Unclaimed, EffectiveSteps, AcceptedTags;
      hide Valid, IsClear, IsHalfClear, IsUnclaimed, Effective, StopRequested, Effects, StoppedBy, SourcePaths;
      evidence := Evidence([], [], []);
      var afterImplementation :- InspectGit(GitInspect);
      evidence := evidence.(changed := afterImplementation);
      var _ :- Report(AcceptanceCommand);
      var commandsSucceeded, missingArtifacts := true, false;
      if SourcePaths(afterImplementation) != [] || LooksProtocol(result) {
        var accepted;
        ghost var results, missing;
        accepted, results, missing := Accept(step);
        evidence := Evidence(afterImplementation, results, missing);
        var ran :- accepted;
        if ran.None? {
          return Ok(None), evidence;
        }
        commandsSucceeded, missingArtifacts := ran.value.0, ran.value.1;
      }
      var changed :- InspectForReview();
      return Ok(Some(ReviewInput(step, changed, commandsSucceeded, missingArtifacts, Some(result)))), evidence;
    }

    /** Announces the attempt; the step's paths must still parse. */
    method StartAttempt(step: CampaignStep, launch: Launch) returns (r: Result<()>)
      requires Valid()
      modifies `state, `disk, `log, `open, `mark, `time, `failedReads, `alive, `faults
      ensures state.state == old(state.state)
      ensures Valid() && Steady()
      ensures r.Ok? ==> Asking(launch.worker) && state.activity.attempt == launch.number
      ensures r.Ok? ==> AllowedPathsFrom(step.allowedPaths).Ok?
    {
      hide Reached, Clear, HalfClear, Unclaimed, EffectiveSteps, AcceptedTags;
      var action := match launch.kind
        case Repair => RepairRequest
        case Fallback => FallbackRequest
        case _ => ModelRequest;
      hide Valid, IsClear, IsHalfClear, IsUnclaimed, Effective, StopRequested, Effects;
      var _ :- ReportAttempt(launch.number, launch.worker, action);
      var _ :- Emit();
      var _ :- AllowedPathsFrom(step.allowedPaths);
      return Ok(());
    }

    /** A checkpoint inside an attempt; a run that stops there records the attempt as it is. */
    method StopRecording(ghost i: nat, step: CampaignStep, launch: Launch, verdict: CoordinatorVerdict)
      returns (r: Result<bool>)
      requires Valid() && Ready(i, step, launch)
      modifies `clock, `state, `disk, `log, `open, `mark, `time, `failedReads, `alive, `faults
      ensures Valid() && Advanced(i) && (open ==> old(open))
      ensures AppendsAtMost(old(AttemptsOf(i)), AttemptsOf(i), launch)
      ensures r == Ok(true) ==> AtCheckpoint() && Shown()
      ensures r == Ok(true) ==>
        Appends(old(AttemptsOf(i)), AttemptsOf(i), launch) && Records(AttemptsOf(i), verdict, None)
      ensures r == Ok(false) ==> Steady() && IsTimely() && IsHalfClear() && (old(IsHalfClear()) ==> IsClear())
      ensures r == Ok(false) ==> state.state == old(state.state)
      ensures r.Err? ==> faults > old(faults)
    {
      hide Reached, Clear, HalfClear, Unclaimed, EffectiveSteps, AcceptedTags, TotalAttempts, Current, KindTied;
      hide Valid, IsClear, IsHalfClear, IsUnclaimed, Effective, StopRequested, Effects, Appends, Records;
      hide Shown, Heeding, Active;
      var stop :- Checkpoint(Some(step.id));
      if stop {
        var _ :- PersistAttempt(i, step, launch, verdict, None);
      }
      return Ok(stop);
    }

    /** An attempt's calls of the implementer; `Ok(None)` stopped. */
    method AskImplementer(ghost i: nat, step: CampaignStep, launch: Launch)
      returns (r: Result<Option<ImplementResult>>)
      requires Valid() && IsClear() && IsTimely() && Ready(i, step, launch)
      modifies `clock, `state, `disk, `log, `open, `mark, `time, `failedReads, `alive, `faults, `calls, `sleeps
      ensures Valid() && Advanced(i) && (open ==> old(open))
      ensures CallsBy(old(calls), calls, launch.worker, CallsPerAttempt())
      ensures AppendsAtMost(old(AttemptsOf(i)), AttemptsOf(i), launch)
      ensures r.Ok? && r.value.Some? ==> Working() && IsHalfClear() && state.state == old(state.state)
      ensures r.Ok? && r.value.None? ==> Stopping() && Shown()
      ensures r.Ok? && r.value.Some? ==> !FailedInTransport(r.value.value)
      ensures r.Err? ==> faults > old(faults) || state.state == old(state.state)
    {
      hide Reached, Clear, HalfClear, Unclaimed, EffectiveSteps, AcceptedTags, Bounded, Waited, Appends;
      hide TotalAttempts, Current, KindTied, Heeding, Shown, Active;
      hide Valid, IsClear, IsHalfClear, IsUnclaimed, Effective, StopRequested, Effects, StopState, CallsPerAttempt;
      var _ :- StartAttempt(step, launch);
      var implemented :- ImplementWithRetries(launch.worker);
      if implemented.None? {
        return Ok(None);
      }
      var stop :- StopRecording(i, step, launch, Terminate(OperatorCancelled));
      if stop {
        return Ok(None);
      }
      return Ok(implemented);
    }

    /** One attempt up to its verdict; `Ok(None)` stopped. */
    method MakeAttempt(ghost i: nat, step: CampaignStep, launch: Launch, standing: Standing, fallbackLeft: nat)
      returns (r: Result<Option<(ReviewInput, CoordinatorVerdict, Option<Plan>)>>, ghost evidence: Evidence)
      requires Valid() && IsClear() && IsTimely() && Ready(i, step, launch)
      modifies `clock, `state, `disk, `log, `open, `mark, `time, `failedReads, `alive, `faults, `calls, `sleeps
      ensures Valid() && Advanced(i) && (open ==> old(open))
      ensures CallsBy(old(calls), calls, launch.worker, CallsPerAttempt())
      ensures AppendsAtMost(old(AttemptsOf(i)), AttemptsOf(i), launch)
      ensures r.Ok? && r.value.Some? ==>
        Ready(i, step, launch) && IsHalfClear() && AttemptsOf(i) == old(AttemptsOf(i))
      ensures r.Ok? && r.value.Some? && r.value.value.1.disposition != RejectedTerminal ==>
        state.state == old(state.state)
      ensures r.Ok? && r.value.Some? ==>
        var (input, verdict, plan) := r.value.value;
        && input.step == step && input.result.Some? && Inspected(input, input.result.value, evidence)
        && Judged(input, standing.fingerprint, standing.repeated, fallbackLeft, verdict, plan)
      ensures r.Ok? && r.value.None? ==> Stopping() && Shown()
      ensures r.Err? ==> faults > old(faults) || state.state == old(state.state)
    {
      hide Reached, Clear, HalfClear, Unclaimed, EffectiveSteps, AcceptedTags, Judged, Appends, Concluded;
      hide TotalAttempts, Current, KindTied, Heeding, Shown, Active, CallsBy, AppendsAtMost, Counted;
      hide Valid, IsClear, IsHalfClear, IsUnclaimed, Effective, StopRequested, Effects, StopState, CallsPerAttempt;
      evidence := Evidence([], [], []);
      var implemented := AskImplementer(i, step, launch);
      if implemented.Err? {
        return Err(implemented.executor), evidence;
      }
      if implemented.value.None? {
        return Ok(None), evidence;
      }
      var inspected;
      inspected, evidence := InspectAttempt(step, implemented.value.value);
      var input :- inspected;
      if input.None? {
        return Ok(None), evidence;
      }
      var judged, _ := JudgeAttempt(input.value, standing.fingerprint, standing.repeated, fallbackLeft);
      var verdict :- judged;
      return Ok(Some((input.value, verdict.0, verdict.1))), evidence;
    }

    // -------------------------------------------------------------- concluding an attempt

    /** What a run that stops with a rejected attempt gives as the reason. */
    function Blame(verdict: CoordinatorVerdict): FailureClassification {
      if verdict.disposition == RejectedRetryable then Classified(verdict)
      else if verdict.classification.Some? then verdict.classification.value
      else PathPolicyFailed
    }

    method RejectBeforeCommit(ghost i: nat, step: CampaignStep, launch: Launch, verdict: CoordinatorVerdict)
      returns (r: Result<()>)
      requires Valid() && Ready(i, step, launch)
      modifies `clock, `state, `disk, `log, `open, `mark, `time, `failedReads, `alive, `faults
      ensures Valid() && Advanced(i) && (open ==> old(open)) && state.headSha == old(state.headSha)
      ensures AppendsAtMost(old(AttemptsOf(i)), AttemptsOf(i), launch)
      ensures r.Ok? ==> Shown() && (AtCheckpoint() || Stopping())
      ensures r.Ok? && !AtCheckpoint() ==> Appends(old(AttemptsOf(i)), AttemptsOf(i), launch)
      ensures r.Err? ==> faults > old(faults)
    {
      hide Heeding, Shown, Active;
      hide Reached, Clear, HalfClear, Unclaimed, EffectiveSteps, AcceptedTags, TotalAttempts, Current, KindTied;
      hide Valid, IsClear, IsHalfClear, IsUnclaimed, Effective, StopRequested, Effects, StopState;
      hide StoppedBy, DispositionAfter;
      var stop :- Checkpoint(Some(step.id));
      if !stop {
        var _ :- PersistAttempt(i, step, launch, verdict, None);
        var _ :- Block(if verdict.classification.Some? then verdict.classification.value else PathPolicyFailed);
      }
      return Ok(());
    }

    /** The source changes that are about to be committed, reviewed once more; `Ok(None)` stopped. */
    method InspectBeforeCommit(ghost i: nat, step: CampaignStep, launch: Launch, input: ReviewInput)
      returns (r: Result<Option<seq<string>>>)
      requires Valid() && Ready(i, step, launch) && input.step == step && step.kind == Implementation
      modifies `clock, `state, `disk, `log, `open, `mark, `time, `failedReads, `alive, `faults
      ensures Valid() && Advanced(i) && (open ==> old(open)) && state.headSha == old(state.headSha)
      ensures r.Ok? && r.value.Some? ==> state.state == old(state.state)
      ensures AppendsAtMost(old(AttemptsOf(i)), AttemptsOf(i), launch)
      ensures r.Ok? && r.value.Some? ==> AttemptsOf(i) == old(AttemptsOf(i))
      ensures r.Ok? && r.value.Some? ==>
        && Ready(i, step, launch) && AtHead() && disk.headSha == state.headSha
        && (old(IsClear()) ==> IsClear()) && (old(IsTimely()) ==> IsTimely())
        && MayCommit(step, r.value.value)
      ensures r.Ok? && r.value.None? ==> Stopping() && Shown()
      ensures r.Err? ==> faults > old(faults) || state.state == old(state.state)
    {
      hide Reached, Clear, HalfClear, Unclaimed, EffectiveSteps, AcceptedTags, ReviewAttempt;
      hide TotalAttempts, Current, KindTied;
      hide Valid, IsClear, IsHalfClear, IsUnclaimed, Effective, StopRequested, Effects, StopState, MayCommit, StoppedBy;
      var preCommit :- InspectGit(PreCommitInspect);
      var again := input.(changedPaths := preCommit, commandsSucceeded := true, missingArtifacts := false);
      var verdict := ReviewAttempt(again);
      if verdict.disposition != Accepted {
        var _ :- RejectBeforeCommit(i, step, launch, verdict);
        return Ok(None);
      }
      AcceptedMayCommit(again);
      var _ :- Report(GitCommit);
      return Ok(Some(SourcePaths(preCommit)));
    }

    /** Records the commit that was just made as the accepted result of its step. */
    method RecordCommit(ghost i: nat, step: CampaignStep, launch: Launch, verdict: CoordinatorVerdict, sha: Sha)
      returns (r: Result<()>)
      requires Valid() && Ready(i, step, launch) && step.kind == Implementation && verdict.disposition == Accepted
      requires InWindow(Now(), sha, step.id)
      modifies `state, `disk, `log, `open, `mark, `time, `failedReads, `alive, `faults
      ensures Valid() && Advanced(i)
      ensures r.Ok? ==> state.state == old(state.state)
      ensures r.Err? ==> faults > old(faults)
      ensures r.Ok? ==> !open && i < |state.steps| && IsAccepted(state.steps[i])
      ensures AppendsAtMost(old(AttemptsOf(i)), AttemptsOf(i), launch)
      ensures r.Ok? ==> Appends(old(AttemptsOf(i)), AttemptsOf(i), launch)
    {
      hide Heeding, Shown, Active, Appends;
      hide Reached, Clear, HalfClear, EffectiveSteps, AcceptedTags, TotalAttempts, Current, KindTied, Unclaimed;
      hide Valid, IsClear, IsHalfClear, Effective, DispositionAfter;
      assert i < |state.steps| by { CurrentIsOpen(state.steps, i); }
      assert IsUnclaimed();
      var _ :- Emit();
      var _ :- PersistAttempt(i, step, launch, verdict, Some(sha));
      var _ :- MarkStepAccepted(i, step, Some(sha));
      return Ok(());
    }

    method CommitAccepted(ghost i: nat, step: CampaignStep, launch: Launch, input: ReviewInput,
                          verdict: CoordinatorVerdict)
      returns (r: Result<StepOutcome>)
      requires Valid() && Ready(i, step, launch) && input.step == step && step.kind == Implementation
      requires verdict.disposition == Accepted && !open && IsHalfClear()
      modifies `clock, `state, `disk, `log, `branch, `open, `mark, `time, `failedReads, `alive, `faults
      ensures Valid() && Advanced(i)
      ensures r == Ok(Done) ==> state.state == old(state.state)
      ensures r.Ok? ==> r.value != Again && !open
      ensures r == Ok(Done) ==> i < |state.steps| && IsAccepted(state.steps[i])
      ensures AppendsAtMost(old(AttemptsOf(i)), AttemptsOf(i), launch)
      ensures r == Ok(Done) ==> Appends(old(AttemptsOf(i)), AttemptsOf(i), launch)
      ensures r == Ok(Stopped) ==> Stopping() && Shown()
      ensures r.Err? ==> faults > old(faults) || state.state == old(state.state)
    {
      hide Heeding, Shown, Active;
      hide Reached, Clear, HalfClear, Unclaimed, EffectiveSteps, AcceptedTags, TotalAttempts;
      hide Current, KindTied, InWindow;
      hide Appends;
      hide Valid, IsClear, IsHalfClear, IsUnclaimed, Effective, StopRequested, Effects, StopState, MayCommit;
      var stop :- StopRecording(i, step, launch, verdict);
      if stop {
        return Ok(Stopped);
      }
      var changed :- InspectBeforeCommit(i, step, launch, input);
      if changed.None? {
        return Ok(Stopped);
      }
      var sha :- CommitLocal(i, step, changed.value);
      var _ :- RecordCommit(i, step, launch, verdict, sha);
      return Ok(Done);
    }

    /** A rejected attempt is recorded; the step is blocked or the worktree reset for another try. */
    method ConcludeRejected(ghost i: nat, step: CampaignStep, launch: Launch, verdict: CoordinatorVerdict,
                            exhausted: bool)
      returns (r: Result<StepOutcome>)
      requires Valid() && Ready(i, step, launch) && verdict.disposition != Accepted && IsHalfClear()
      modifies `state, `disk, `log, `open, `mark, `time, `failedReads, `alive, `faults
      ensures Valid() && Advanced(i) && (open ==> old(open))
      ensures r == Ok(Again) ==> state.state == old(state.state)
      ensures r.Ok? ==> r.value != Done
      ensures r == Ok(Again) ==> AtStep(i, step) && verdict.disposition == RejectedRetryable && !exhausted
      ensures r == Ok(Stopped) && !exhausted ==>
        verdict.disposition == RejectedTerminal || !Classified(verdict).Retryable()
      ensures r == Ok(Again) ==> IsHalfClear()
      ensures AppendsAtMost(old(AttemptsOf(i)), AttemptsOf(i), launch)
      ensures r == Ok(Again) ==> Appends(old(AttemptsOf(i)), AttemptsOf(i), launch)
      ensures r == Ok(Stopped) ==> Blamed(Blame(verdict)) && Shown()
      ensures r.Err? ==> faults > old(faults)
    {
      hide Reached, Clear, HalfClear, Unclaimed, EffectiveSteps, AcceptedTags, TotalAttempts, Current, KindTied;
      hide Valid, IsClear, IsHalfClear, IsUnclaimed, Effective, StopRequested, Effects, Shown, Heeding;
      hide StoppedBy, DispositionAfter, Ready, AtStep, Appends, AppendsAtMost, WithAttempt;
      var _ :- PersistAttempt(i, step, launch, verdict, None);
      var _ :- Emit();
      if verdict.disposition == RejectedTerminal {
        var _ :- Block(if verdict.classification.Some? then verdict.classification.value else PathPolicyFailed);
        return Ok(Stopped);
      }
      var classification := Classified(verdict);
      if !classification.Retryable() || exhausted {
        var _ :- Block(classification);
        return Ok(Stopped);
      }
      var _ :- Emit();
      return Ok(Again);
    }

    // -------------------------------------------------------------- steps

    lemma NothingCounted(standing: Standing, kind: AttemptKind)
      ensures RepeatCounted(Turn(kind, None, false), standing.fingerprint, standing.repeated)
    {
    }

    /** One pass of the attempt loop, from the attempt's start to its outcome. */
    method TakeTurn(ghost i: nat, step: CampaignStep, standing: Standing, kind: AttemptKind, budget: Budget)
      returns (r: Result<StepOutcome>, plan: Option<Plan>, ghost byModel: bool, ghost evidence: Evidence)
      requires Valid() && IsClear() && IsTimely() && AtStep(i, step) && step.kind == Implementation && !open
      requires standing.lastAttempt == 0 || standing.lastAttempt == TotalAttempts(state.steps)
      requires TotalAttempts(state.steps) < campaign.limits.maxTotalAttempts
      requires Pick(standing) == Some((kind, budget))
      modifies `clock, `state, `disk, `log, `branch, `open, `mark, `time, `failedReads, `alive, `faults, `calls, `sleeps
      ensures Valid() && Advanced(i)
      ensures r == Ok(Again) || r == Ok(Done) ==> state.state == old(state.state)
      ensures CallsBy(old(calls), calls, WorkerFor(campaign.policy, kind), CallsPerAttempt())
      ensures r == Ok(Done) ==> !open && i < |state.steps| && IsAccepted(state.steps[i])
      ensures r == Ok(Done) ==> SourcePaths(evidence.changed) == [] || Passed(step, evidence)
      ensures RepeatCounted(Turn(kind, plan, byModel), standing.fingerprint, standing.repeated)
      ensures var launch := LaunchOf(standing, kind, old(TotalAttempts(state.steps)) + 1, campaign.policy);
        && AppendsAtMost(old(AttemptsOf(i)), AttemptsOf(i), launch)
        && (r == Ok(Again) || r == Ok(Done) ==> Appends(old(AttemptsOf(i)), AttemptsOf(i), launch))
      ensures r == Ok(Stopped) ==>
        plan.None? || Demoted(plan.value.verdict).disposition != RejectedRetryable || budget == Budget(0, 0, 0)
      ensures r == Ok(Again) ==>
        && !open && AtStep(i, step) && IsHalfClear() && plan.Some?
        && MayGoOn(plan.value, budget)
      ensures r == Ok(Stopped) ==> Stopping() && Shown()
      ensures r.Err? ==> faults > old(faults) || state.state == old(state.state)
    {
      hide Heeding, Stopping, Shown, Active, Appends, Classified, Demoted, Judged, MayGoOn, RepeatCounted;
      hide Reached, Clear, HalfClear, Unclaimed, EffectiveSteps, AcceptedTags, TotalAttempts, Current;
      hide ReviewAttempt, WantsFallback, Inspected, Passed, SourcePaths;
      hide Valid, IsClear, IsHalfClear, IsUnclaimed, Effective, StopRequested, Effects, CallsPerAttempt;
      var number := TotalAttempts(state.steps) + 1;
      var launch := LaunchOf(standing, kind, number, campaign.policy);
      plan, byModel := None, false;
      NothingCounted(standing, kind);
      assert Ready(i, step, launch);
      hide KindTied;
      var made;
      made, evidence := MakeAttempt(i, step, launch, standing, budget.fallback);
      if made.Err? {
        return Err(made.executor), None, false, evidence;
      }
      if made.value.None? {
        return Ok(Stopped), None, false, evidence;
      }
      var (input, verdict, planned) := made.value.value;
      JudgedMeans(input, standing.fingerprint, standing.repeated, verdict, planned, kind, budget);
      if verdict.disposition == Accepted {
        AcceptedPassed(input, evidence);
        r := CommitAccepted(i, step, launch, input, verdict);
      } else {
        r := ConcludeRejected(i, step, launch, verdict, budget == Budget(0, 0, 0));
      }
      plan, byModel := planned, ReviewAttempt(input).disposition == Accepted;
    }

    /** The checkpoint before an attempt and the choice of its kind; `Ok(None)` stopped. */
    method ChooseAttempt(step: CampaignStep, standing: Standing) returns (r: Result<Option<(AttemptKind, Budget)>>)
      requires Valid() && IsHalfClear()
      modifies `clock, `state, `disk, `log, `open, `mark, `time, `failedReads, `alive, `faults
      ensures Valid() && Steady()
      ensures r.Ok? && r.value.None? ==> Stopping() && Shown()
      ensures r.Ok? && r.value.None? ==>
        StopState(state).Some? || TotalAttempts(state.steps) >= campaign.limits.maxTotalAttempts || Pick(standing).None?
      ensures r.Ok? && r.value.Some? ==> r.value == Pick(standing) && state.state == old(state.state)
      ensures r.Ok? && r.value.Some? ==>
        IsClear() && IsTimely() && TotalAttempts(state.steps) < campaign.limits.maxTotalAttempts
      ensures r.Ok? && r.value.None? ==>
        AtCheckpoint() || Blamed(InadequateImplementation) || (Pick(standing).None? && Blamed(standing.blame))
      ensures r.Err? ==> faults > old(faults)
    {
      hide Reached, Clear, HalfClear, Unclaimed, EffectiveSteps, AcceptedTags, TotalAttempts, Pick;
      hide Valid, IsClear, IsHalfClear, IsUnclaimed, Effective, StopRequested, Effects, StopState, Shown;
      var stop :- Checkpoint(Some(step.id));
      if stop {
        return Ok(None);
      }
      if TotalAttempts(state.steps) >= campaign.limits.maxTotalAttempts {
        var _ :- Block(InadequateImplementation);
        return Ok(None);
      }
      var picked := Pick(standing);
      if picked.None? {
        var _ :- Block(standing.blame);
        return Ok(None);
      }
      return Ok(picked);
    }

    /** `execute_implementation`: the attempt loop. `turns` is what it did, pass by pass. */
    method ExecuteImplementation(ghost i: nat, step: CampaignStep)
      returns (r: Result<StepOutcome>, ghost turns: seq<Turn>, ghost evidence: Evidence)
      requires Valid() && AtStep(i, step) && step.kind == Implementation && !open && IsHalfClear()
      modifies `clock, `state, `disk, `log, `branch, `open, `mark, `time, `failedReads, `alive, `faults, `calls, `sleeps
      ensures Valid() && Advanced(i)
      ensures r == Ok(Done) ==> state.state == old(state.state)
      ensures r.Ok? ==> r.value != Again && (open ==> faults > old(faults))
      ensures r == Ok(Done) ==> !open && i < |state.steps| && IsAccepted(state.steps[i])
      ensures Regular(turns, campaign.policy)
      ensures r == Ok(Done) ==> SourcePaths(evidence.changed) == [] || Passed(step, evidence)
      ensures Calls(old(calls), calls, turns, campaign.policy, CallsPerAttempt())
      ensures Mirrors(old(AttemptsOf(i)), AttemptsOf(i), turns, campaign.policy)
      ensures r == Ok(Stopped) ==>
        || StopState(state).Some? || TotalAttempts(state.steps) >= campaign.limits.maxTotalAttempts
        || Exhausted(turns, campaign.policy) || EndedByLast(turns)
      ensures r == Ok(Done) ==> |AttemptsOf(i)| == |old(AttemptsOf(i))| + |turns|
      ensures r == Ok(Stopped) ==> Stopping() && Shown()
      ensures r.Err? ==> faults > old(faults) || state.state == old(state.state)
    {
      hide Reached, Clear, HalfClear, Unclaimed, EffectiveSteps, AcceptedTags, TotalAttempts, Current, WantsFallback;
      hide Valid, IsClear, IsHalfClear, IsUnclaimed, Effective, StopRequested, Effects;
      hide CallsPerAttempt, StopState, StoppedBy;
      hide Tracked, Regular, Pick, Mirrors, Appends, AppendsAtMost, Calls, CallsBy, Exhausted;
      hide LaunchOf, MayGoOn, WorkerFor, Passed, SourcePaths, Heeding, Stopping, Shown, Active;
      OpeningTracked(campaign.policy, AttemptsOf(i));
      CallsNone(calls, campaign.policy, CallsPerAttempt());
      var standing := Opening(campaign.policy);
      turns, evidence := [], Evidence([], [], []);
      while true
        invariant Valid() && Advanced(i) && AtStep(i, step) && !open && IsHalfClear()
        invariant state.state == old(state.state)
        invariant Tracked(turns, standing, campaign.policy, old(AttemptsOf(i)), AttemptsOf(i))
        invariant Calls(old(calls), calls, turns, campaign.policy, CallsPerAttempt())
        decreases Remaining(standing)
      {
        TrackedMeans(turns, standing, campaign.policy, old(AttemptsOf(i)), AttemptsOf(i));
        var picked :- ChooseAttempt(step, standing);
        if picked.None? {
          return Ok(Stopped), turns, evidence;
        }
        var (kind, budget) := picked.value;
        PickSpends(standing);
        var number := TotalAttempts(state.steps) + 1;
        ghost var attempts, made := AttemptsOf(i), calls;
        LastNumber(i, step);
        var outcome, plan;
        ghost var byModel;
        outcome, plan, byModel, evidence := TakeTurn(i, step, standing, kind, budget);
        ghost var turn := Turn(kind, plan, byModel);
        PassTracked(turns, standing, campaign.policy, old(AttemptsOf(i)), attempts, AttemptsOf(i), turn, budget,
          number);
        CallsNext(old(calls), made, calls, turns, turn, campaign.policy, CallsPerAttempt());
        turns := turns + [turn];
        if outcome != Ok(Again) {
          return outcome, turns, evidence;
        }
        standing := NextStanding(standing, budget, number, plan.value);
      }
    }

    /** The last attempt of the current step is the last of the campaign. */
    lemma LastNumber(i: nat, step: CampaignStep)
      requires Valid() && AtStep(i, step)
      ensures AttemptsOf(i) != [] ==> AttemptsOf(i)[|AttemptsOf(i)| - 1].attempt == TotalAttempts(state.steps)
    {
      MemorySound(campaign, Now());
      hide Valid, Effective;
      TotalAtCurrent(state.steps, i);
    }

    lemma VerificationLaunch(i: nat, step: CampaignStep, number: nat)
      requires AtStep(i, step) && step.kind == Verification
      requires number == TotalAttempts(state.steps) + 1 <= campaign.limits.maxTotalAttempts
      ensures Ready(i, step, Launch(number, VerificationRun, campaign.policy.primary, None, None))
    {
    }

    /** The reviewed outcome of a verification step's commands; `Ok(None)` stopped. */
    method Verify(step: CampaignStep, number: nat)
      returns (r: Result<Option<CoordinatorVerdict>>, ghost input: ReviewInput, ghost evidence: Evidence)
      requires Valid()
      modifies `state, `disk, `log, `open, `mark, `time, `failedReads, `alive, `faults
      ensures Valid() && Steady()
      ensures r.Ok? && r.value.Some? ==> state.state == old(state.state)
      ensures r.Ok? && r.value.Some? ==> AtHead() && r.value.value == ReviewAttempt(input)
      ensures input.step == step && input.result.None? && (r.Ok? && r.value.Some? ==> Counted(input, evidence))
      ensures r.Ok? && r.value.None? ==> Blamed(ExecutorUnavailable) && Shown()
      ensures r.Err? ==> faults > old(faults) || state.state == old(state.state)
    {
      hide Reached, Clear, HalfClear, Unclaimed, EffectiveSteps, AcceptedTags, ReviewAttempt;
      hide Valid, IsClear, IsHalfClear, IsUnclaimed, Effective, StopRequested, Effects, StoppedBy;
      input, evidence := ReviewInput(step, [], false, false, None), Evidence([], [], []);
      var _ :- ReportAttempt(number, campaign.policy.primary, AcceptanceCommand);
      var accepted;
      ghost var results, missing;
      accepted, results, missing := Accept(step);
      var ran :- accepted;
      if ran.None? {
        return Ok(None), input, evidence;
      }
      var changed :- SnapshotChecked();
      var given := ReviewInput(step, changed, ran.value.0, ran.value.1, None);
      input, evidence := given, Evidence(changed, results, missing);
      return Ok(Some(ReviewAttempt(given))), input, evidence;
    }

    method ExecuteVerification(ghost i: nat, step: CampaignStep)
      returns (r: Result<StepOutcome>, ghost evidence: Evidence)
      requires Valid() && AtStep(i, step) && step.kind == Verification && !open
      modifies `clock, `state, `disk, `log, `open, `mark, `time, `failedReads, `alive, `faults
      ensures Valid() && Advanced(i) && !open
      ensures r == Ok(Done) ==> state.state == old(state.state)
      ensures r.Ok? ==> r.value != Again
      ensures r == Ok(Done) ==> Passed(step, evidence)
      ensures r == Ok(Done) ==> i < |state.steps| && IsAccepted(state.steps[i])
      ensures r == Ok(Stopped) ==> Stopping() && Shown()
      ensures r.Err? ==> faults > old(faults) || state.state == old(state.state)
      ensures r == Ok(Stopped) && AttemptsOf(i) == old(AttemptsOf(i)) ==>
        AtCheckpoint() || Blamed(InadequateImplementation) || Blamed(ExecutorUnavailable)
    {
      hide Passed, Counted, Heeding, Shown, Active, Appends, AppendsAtMost, ReviewAttempt;
      hide Reached, Clear, HalfClear, Unclaimed, EffectiveSteps, AcceptedTags, TotalAttempts;
      hide Current, KindTied, InWindow;
      hide Valid, IsClear, IsHalfClear, IsUnclaimed, Effective, StopRequested, Effects, StopState;
      hide StoppedBy, DispositionAfter;
      evidence := Evidence([], [], []);
      var stop :- Checkpoint(Some(step.id));
      if stop {
        return Ok(Stopped), evidence;
      }
      var number := TotalAttempts(state.steps) + 1;
      if number > campaign.limits.maxTotalAttempts {
        var _ :- Block(InadequateImplementation);
        return Ok(Stopped), evidence;
      }
      var launch := Launch(number, VerificationRun, campaign.policy.primary, None, None);
      VerificationLaunch(i, step, number);
      var reviewed;
      ghost var input;
      reviewed, input, evidence := Verify(step, number);
      var verified :- reviewed;
      if verified.None? {
        return Ok(Stopped), evidence;
      }
      if verified.value.disposition == Accepted {
        VerifiedPassed(input, evidence);
      }
      r := ConcludeVerification(i, step, launch, verified.value);
    }

    /** Records a verification; an accepted one accepts its step, another blocks the run. */
    method ConcludeVerification(ghost i: nat, step: CampaignStep, launch: Launch, verdict: CoordinatorVerdict)
      returns (r: Result<StepOutcome>)
      requires Valid() && Ready(i, step, launch) && step.kind == Verification && AtHead()
      modifies `state, `disk, `log, `open, `mark, `time, `failedReads, `alive, `faults
      ensures Valid() && Advanced(i) && (open ==> old(open))
      ensures r.Ok? ==> r.value != Again
      ensures r.Ok? ==> (r.value == Done <==> verdict.disposition == Accepted)
      ensures r == Ok(Done) ==> i < |state.steps| && IsAccepted(state.steps[i]) && state.state == old(state.state)
      ensures r == Ok(Stopped) ==> Stopping() && Shown()
      ensures r.Err? ==> faults > old(faults)
      ensures r.Ok? ==> AttemptsOf(i) != old(AttemptsOf(i))
    {
      hide Reached, Clear, HalfClear, Unclaimed, EffectiveSteps, AcceptedTags, TotalAttempts, Current, KindTied;
      hide Valid, IsClear, IsHalfClear, IsUnclaimed, Effective, StopRequested, Effects, InWindow;
      hide DispositionAfter, Heeding, Shown, Active, Appends, AppendsAtMost;
      assert i < |state.steps| by { CurrentIsOpen(state.steps, i); }
      var _ :- PersistAttempt(i, step, launch, verdict, None);
      if verdict.disposition == Accepted {
        var _ :- MarkStepAccepted(i, step, None);
        return Ok(Done);
      }
      var _ :- Block(if verdict.classification.Some? then verdict.classification.value else AcceptanceFailed);
      return Ok(Stopped);
    }

    method ExecuteStep(ghost i: nat, step: CampaignStep) returns (r: Result<StepOutcome>, ghost evidence: Evidence)
      requires Valid() && AtStep(i, step) && !open && IsHalfClear()
      modifies `clock, `state, `disk, `log, `branch, `open, `mark, `time, `failedReads, `alive, `faults, `calls, `sleeps
      ensures Valid() && Advanced(i)
      ensures r == Ok(Done) ==> state.state == old(state.state)
      ensures r.Ok? ==> r.value != Again
      ensures r == Ok(Done) ==>
        Passed(step, evidence) || (step.kind == Implementation && SourcePaths(evidence.changed) == [])
      ensures r == Ok(Done) ==> !open && i < |state.steps| && IsAccepted(state.steps[i])
      ensures r == Ok(Stopped) ==> Stopping() && Shown()
      ensures r.Err? ==> faults > old(faults) || state.state == old(state.state)
    {
      hide Reached, Clear, HalfClear, Unclaimed, EffectiveSteps, AcceptedTags, Current, Disciplined, WithinPolicy;
      hide Passed, SourcePaths;
      hide Valid, IsClear, IsHalfClear, IsUnclaimed, Effective, StopRequested, Effects;
      if step.kind == Verification {
        r, evidence := ExecuteVerification(i, step);
      } else {
        ghost var turns;
        r, turns, evidence := ExecuteImplementation(i, step);
      }
    }

    // -------------------------------------------------------------- recovering before a run

    method BlockContinuity() returns (r: Result<bool>)
      requires Valid()
      modifies `state, `disk, `log, `open, `mark, `time, `failedReads, `alive, `faults
      ensures Valid() && Steady() && r != Ok(true)
      ensures r == Ok(false) ==> Stopping() && Shown()
      ensures r == Ok(false) ==> Blamed(ContinuityFailed)
      ensures r.Err? ==> faults > old(faults)
    {
      hide Reached, Clear, HalfClear, Unclaimed, EffectiveSteps, AcceptedTags, StoppedBy;
      hide Valid, IsClear, IsHalfClear, IsUnclaimed, Effective, StopRequested, Effects;
      var _ :- Block(ContinuityFailed);
      return Ok(false);
    }

    /** The worktree is the recorded one, at the recorded head, and clean: its `dirty` source paths
        were all discarded, or the run is blocked or in error. */
    method RecoverWorktree() returns (r: Result<bool>, ghost dirty: seq<string>, ghost discarded: seq<string>)
      requires Valid()
      modifies `state, `disk, `log, `open, `mark, `time, `failedReads, `alive, `faults
      ensures Valid() && Steady()
      ensures r == Ok(true) ==> AtHead() && state == old(state) && discarded == dirty
      ensures r == Ok(false) ==> Stopping() && Shown()
      ensures Discards(campaign, old(state), dirty, discarded)
      ensures dirty != [] && Revised(campaign, old(state)) ==> r != Ok(true) && discarded == []
      ensures r == Ok(false) ==> Blamed(ContinuityFailed)
    {
      hide Reached, Clear, HalfClear, Unclaimed, EffectiveSteps, AcceptedTags, CanReset, Discardable, IsEphemeral;
      hide Valid, IsClear, IsHalfClear, IsUnclaimed, Effective, StopRequested, Effects;
      dirty, discarded := [], [];
      var continuous: bool := *;
      if !continuous {
        r := BlockContinuity();
        return;
      }
      var _ :- Emit();
      if HeadOf(campaign.baseSha, branch) != state.headSha {
        r := BlockContinuity();
        return;
      }
      var _ :- Emit();
      var changedPaths: seq<string> := *;
      var sources := SourcePaths(changedPaths);
      dirty := sources;
      if sources == [] {
        return Ok(true), dirty, discarded;
      }
      r, discarded := ReconcileWorktree(sources);
    }

    /** Discards the dirty source paths of an interrupted attempt, or blocks the run. */
    method ReconcileWorktree(dirty: seq<string>) returns (r: Result<bool>, ghost discarded: seq<string>)
      requires Valid() && dirty != [] && forall p :: p in dirty ==> !IsEphemeral(p)
      modifies `state, `disk, `log, `open, `mark, `time, `failedReads, `alive, `faults
      ensures Valid() && Steady()
      ensures r == Ok(true) ==> state == old(state) && discarded == dirty
      ensures r == Ok(false) ==> Stopping() && Shown()
      ensures Discards(campaign, old(state), dirty, discarded)
      ensures r == Ok(false) ==> Blamed(ContinuityFailed)
    {
      hide Reached, Clear, HalfClear, Unclaimed, EffectiveSteps, AcceptedTags, CanReset, Discardable, IsEphemeral;
      hide Valid, IsClear, IsHalfClear, IsUnclaimed, Effective, StopRequested, Effects;
      discarded := [];
      var insideRoot: bool := *;
      var reset :- CanReset(campaign, state, insideRoot, dirty);
      if !reset {
        r := BlockContinuity();
        return;
      }
      var _ :- Emit();
      ResetIsAuthorized(campaign, state, insideRoot, dirty);
      NotRevised(campaign, state, insideRoot, dirty);
      discarded := dirty;
      var _ :- Emit();
      return Ok(true), discarded;
    }

    method Expire() returns (r: Result<()>)
      requires Valid()
      modifies `state, `disk, `log, `open, `mark, `time, `failedReads, `alive, `faults
      ensures Valid() && Steady()
      ensures r.Ok? ==> state.state == Expired && Shown()
      ensures r.Err? ==> faults > old(faults)
    {
      hide Reached, Clear, HalfClear, Unclaimed, EffectiveSteps, AcceptedTags;
      var now: nat := *;
      Update(state.(state := Expired, blockedReason := Some(CampaignExpired), endTime := Some(now)));
      r := SaveAndEmit();
    }

    /** Budget, executor and workers: what `recover` checks behind the worktree. */
    method RecoverDependencies() returns (r: Result<bool>)
      requires Valid()
      modifies `clock, `state, `disk, `log, `open, `mark, `time, `failedReads, `alive, `faults, `sleeps
      ensures Valid() && Steady()
      ensures r == Ok(true) ==> state.state == old(state.state) && IsTimely()
      ensures r == Ok(false) ==> Stopping() && Shown()
      ensures Waited(old(sleeps))
      ensures r == Ok(false) ==>
        state.state == Expired || Blamed(ExecutorUnavailable) || Blamed(ModelUnavailable) || AtCheckpoint()
    {
      hide Reached, Clear, HalfClear, Unclaimed, EffectiveSteps, AcceptedTags;
      hide Valid, IsClear, IsHalfClear, IsUnclaimed, Effective, StopRequested, Effects, Waited, StoppedBy;
      NoWaits();
      RefreshBudget();
      if state.remainingSeconds == 0 {
        var _ :- Expire();
        return Ok(false);
      }
      var executorUp: bool := *;
      if !executorUp {
        var _ :- Block(ExecutorUnavailable);
        return Ok(false);
      }
      r := RecoverWorkers();
    }

    method RecoverWorkers() returns (r: Result<bool>)
      requires Valid() && IsTimely()
      modifies `clock, `state, `disk, `log, `open, `mark, `time, `failedReads, `alive, `faults, `sleeps
      ensures Valid() && Steady()
      ensures r == Ok(true) ==> state.state == old(state.state) && IsTimely()
      ensures r == Ok(false) ==> Stopping() && Shown()
      ensures Waited(old(sleeps))
      ensures r == Ok(false) ==> Blamed(ModelUnavailable) || AtCheckpoint()
      ensures r == Ok(true) && sleeps != old(sleeps) ==> state.activity.action == Recovering
    {
      hide Reached, Clear, HalfClear, Unclaimed, EffectiveSteps, AcceptedTags;
      hide Valid, IsClear, IsHalfClear, IsUnclaimed, Effective, StopRequested, Effects, Waited;
      var waited :- RecoverWorkerHealth();
      if waited.None? {
        return Ok(false);
      }
      if waited.value {
        var _ :- Announce(Recovering);
      }
      var _ :- Emit();
      return Ok(true);
    }

    /** `recover`; `Ok(true)` means that every check passed. */
    method Recover() returns (r: Result<bool>, ghost dirty: seq<string>, ghost discarded: seq<string>)
      requires Valid()
      modifies `clock, `state, `disk, `log, `open, `mark, `time, `failedReads, `alive, `faults, `sleeps
      ensures Valid() && Steady()
      ensures r == Ok(true) ==> AtHead() && discarded == dirty && IsTimely()
      ensures r == Ok(true) ==> state.state == old(state.state)
      ensures r == Ok(false) ==> Stopping() && Shown()
      ensures Discards(campaign, old(state), dirty, discarded)
      ensures dirty != [] && Revised(campaign, old(state)) ==> r != Ok(true) && discarded == []
      ensures Waited(old(sleeps))
    {
      hide Reached, Clear, HalfClear, Unclaimed, EffectiveSteps, AcceptedTags, Discards;
      hide Valid, IsClear, IsHalfClear, IsUnclaimed, Effective, StopRequested, Effects, Waited;
      NoWaits();
      var settled;
      settled, dirty, discarded := RecoverWorktree();
      var sound :- settled;
      if !sound {
        return Ok(false), dirty, discarded;
      }
      r := RecoverDependencies();
    }

    // -------------------------------------------------------------- running the steps

    /** A run only moves forward, and an unowned commit is the mark of a failed action. */
    twostate predicate Moved()
      reads `faults, `alive, `disk, `log, `state, `open, `mark, `failedReads
    {
      && Requested()
      && old(Effective()) <= Effective()
      && |state.steps| == |old(state.steps)|
      && Tallied()
      && (open ==> old(open) || faults > old(faults))
    }

    method AnnounceStep(step: CampaignStep) returns (r: Result<()>)
      requires Valid()
      modifies `state, `disk, `log, `open, `mark, `time, `failedReads, `alive, `faults
      ensures Valid() && Steady()
      ensures state.state == old(state.state)
      ensures state.activity.stepId == Some(step.id) && (r.Ok? ==> Shown())
      ensures r.Err? ==> faults > old(faults)
    {
      hide Reached, Clear, HalfClear, Unclaimed, EffectiveSteps, AcceptedTags;
      Update(state.(activity := state.activity.(stepId := Some(step.id), action := StepStarted)));
      hide Valid, IsClear, IsHalfClear, IsUnclaimed, Effective, StopRequested, Effects;
      var _ :- Save();
      r := Emit();
    }

    /** The checkpoint before a step, and its announcement; `Ok(false)` stopped. */
    method BeginStep(step: CampaignStep) returns (r: Result<bool>)
      requires Valid()
      modifies `clock, `state, `disk, `log, `open, `mark, `time, `failedReads, `alive, `faults
      ensures Valid() && Steady()
      ensures r == Ok(true) ==> state.state == old(state.state)
      ensures r == Ok(true) ==> IsHalfClear()
      ensures r == Ok(false) ==> AtCheckpoint() && Shown()
      ensures r == Ok(true) ==> state.activity.stepId == Some(step.id)
      ensures r.Err? ==> faults > old(faults)
    {
      hide Reached, Clear, HalfClear, Unclaimed, EffectiveSteps, AcceptedTags;
      hide Valid, IsClear, IsHalfClear, IsUnclaimed, Effective, StopRequested, Effects;
      var stop :- Checkpoint(Some(step.id));
      if stop {
        return Ok(false);
      }
      var _ :- AnnounceStep(step);
      return Ok(true);
    }

    /** What a step's outcome means for the run: only an accepted step lets it go on. */
    method EndStep(outcome: Result<StepOutcome>) returns (r: Result<bool>)
      requires Valid()
      requires outcome == Ok(Stopped) ==> Stopping() && Shown()
      requires outcome != Ok(Again)
      modifies `state, `disk, `log, `open, `mark, `time, `failedReads, `alive, `faults
      ensures Valid() && Steady()
      ensures r == Ok(true) ==> state.state == old(state.state)
      ensures r == Ok(true) ==> outcome == Ok(Done)
      ensures r == Ok(false) ==> Stopping() && Shown()
      ensures r.Ok? && outcome == Ok(Done) ==> r.value
      ensures r.Ok? && outcome.Err? ==> Blamed(if outcome.executor then ExecutorUnavailable else ContinuityFailed)
    {
      hide Reached, Clear, HalfClear, Unclaimed, EffectiveSteps, AcceptedTags;
      hide Valid, IsClear, IsHalfClear, IsUnclaimed, Effective, StopRequested, Effects;
      match outcome {
        case Err(executor) =>
          var _ :- Block(if executor then ExecutorUnavailable else ContinuityFailed);
          return Ok(false);
        case Ok(Done) =>
          var _ :- Emit();
          return Ok(true);
        case Ok(_) =>
          return Ok(false);
      }
    }

    lemma StepRecord(n: nat, step: CampaignStep)
      requires Valid() && n < |Effective()| && Effective()[n] == step && AcceptedUpTo(n)
      ensures FindIndex(state.steps, step.id).None? ==> n >= |state.steps|
      ensures FindIndex(state.steps, step.id).Some? ==>
        FindIndex(state.steps, step.id) == Some(n) && (!IsAccepted(state.steps[n]) ==> AtStep(n, step))
    {
      hide Reached, EffectiveSteps;
      var index := FindIndex(state.steps, step.id);
      if index.Some? {
        RecordIndex(campaign, start, Now(), n, index.value);
      }
      if n < |state.steps| {
        RecordOf(campaign, start, Now(), n);
      }
    }

    /** One step of the run; `Ok(true)` goes on to the next one. */
    method RunStep(ghost n: nat, step: CampaignStep) returns (r: Result<bool>)
      requires Valid() && !open && AcceptedUpTo(n)
      requires n < |Effective()| && Effective()[n] == step
      modifies `clock, `state, `disk, `log, `branch, `open, `mark, `time, `failedReads, `alive, `faults, `calls, `sleeps
      ensures Valid() && Moved()
      ensures Onward() && (r == Ok(true) ==> state.state == old(state.state))
      ensures r == Ok(true) ==> AcceptedUpTo(n + 1) && !open
      ensures r == Ok(false) ==> Stopping() && Shown()
    {
      hide Reached, Clear, HalfClear, Unclaimed, EffectiveSteps, AcceptedTags, Current, StopState, StoppedBy;
      hide Valid, IsClear, IsHalfClear, IsUnclaimed, Effective, StopRequested, Effects;
      StepRecord(n, step);
      var index := FindIndex(state.steps, step.id);
      if index.None? {
        return Err(false);
      }
      if IsAccepted(state.steps[index.value]) {
        return Ok(true);
      }
      var begun :- BeginStep(step);
      if !begun {
        return Ok(false);
      }
      var outcome, _ := ExecuteStep(n, step);
      r := EndStep(outcome);
    }

    /** The campaign is completed on disk. */
    method Complete() returns (r: Result<()>)
      requires Valid() && Active() && AcceptedUpTo(|Effective()|)
      modifies `clock, `state, `disk, `log, `open, `mark, `time, `failedReads, `alive, `faults
      ensures Valid() && Moved() && (open ==> old(open)) && state.steps == old(state.steps)
      ensures r.Ok? ==> state.state == Completed && Shown()
      ensures r.Ok? ==> forall n :: AcceptedUpTo(n) ==> DurableUpTo(n)
    {
      hide DurableUpTo, Reached, Clear, HalfClear, Unclaimed, EffectiveSteps, AcceptedTags;
      hide IsClear, IsHalfClear, IsUnclaimed;
      var now: nat := *;
      AllRecords();
      var shown := state.activity.(stepId := None, action := CompletedAction, worker := None);
      CompleteStep(campaign, start, Now(), state.(state := Completed, endTime := Some(now), activity := shown));
      state := state.(state := Completed, endTime := Some(now), activity := shown);
      hide Valid, Effective, StopRequested, Effects, AcceptedUpTo;
      RefreshBudget();
      r := SaveAndEmit();
    }

    lemma AllRecords()
      requires Valid() && AcceptedUpTo(|Effective()|)
      ensures |state.steps| == |Effective()| && AllAccepted(state.steps)
    {
      hide EffectiveSteps, Lawful, Accounted, BranchSound, StepsPermitted, DistinctCommits, Extends, Agrees;
    }

    /** The loop over the effective steps; `Ok(true)` has accepted them all. */
    method RunSteps() returns (r: Result<bool>)
      requires Valid() && !open && Active()
      modifies `clock, `state, `disk, `log, `branch, `open, `mark, `time, `failedReads, `alive, `faults, `calls, `sleeps
      ensures Valid() && Moved()
      ensures r.Ok? && r.value ==> AcceptedUpTo(|old(Effective())|) && state.state == Completed && !open && Shown()
      ensures r.Ok? && !r.value ==> Stopping() && Shown()
    {
      hide DurableUpTo, Reached, Clear, HalfClear, Unclaimed, EffectiveSteps, AcceptedTags;
      hide Valid, IsClear, IsHalfClear, IsUnclaimed;
      var steps := EffectiveSteps(campaign, log);
      assert steps == Effective();
      hide Effective;
      for n := 0 to |steps|
        invariant Valid() && Moved() && AcceptedUpTo(n) && !open
        invariant Active() && steps == Effective()
      {
        var goOn :- RunStep(n, steps[n]);
        if !goOn {
          return Ok(false);
        }
      }
      var _ :- Complete();
      return Ok(true);
    }

    /** `run_with_lease`; `Ok(true)` completed the campaign: every step it had is accepted. */
    method RunWithLease(resume: bool) returns (r: Result<bool>)
      requires Valid() && !open
      requires state.leaseId.Some? && (resume ==> !disk.pauseRequested && !state.pauseRequested)
      modifies `clock, `state, `disk, `log, `branch, `open, `mark, `time, `failedReads, `alive, `faults, `calls, `sleeps
      ensures Valid() && Moved()
      ensures r == Ok(true) ==> AcceptedUpTo(|old(Effective())|) && state.state == Completed && Shown()
      ensures !resume && old(state.state) != Running && old(state.state) != Paused ==> Idle()
      ensures old(StopRequested(disk) && StopRequested(state)) ==> Idle()
      ensures r.Ok? ==> state.state != Running
    {
      hide Reached, Clear, HalfClear, Unclaimed, EffectiveSteps, AcceptedTags, Discardable, IsEphemeral, DurableUpTo;
      hide Valid, IsClear, IsHalfClear, IsUnclaimed, Effective, Effects, StoppedBy, Waited;
      var recovered;
      ghost var dirty, discarded;
      recovered, dirty, discarded := Recover();
      var _ :- recovered;
      match state.state {
        case Completed | Cancelled | Expired | Failed =>
          return Ok(false);
        case Blocked =>
          if !resume {
            return Ok(false);
          }
        case _ =>
      }
      if state.cancelRequested {
        var _ :- Finish(OperatorCancelled);
        return Ok(false);
      }
      if state.pauseRequested {
        var _ :- StopPaused(None);
        return Ok(false);
      }
      var ready: bool := *;
      if !ready {
        var classification: FailureClassification := *;
        var _ :- Block(classification);
        return Ok(false);
      }
      var _ :- Activate();
      r := RunSteps();
    }

    method Activate() returns (r: Result<()>)
      requires Valid()
      modifies `state, `disk, `log, `open, `mark, `time, `failedReads, `alive, `faults
      ensures Valid() && Moved() && (open ==> old(open))
      ensures r.Ok? ==> Active()
    {
      hide Reached, Clear, HalfClear, Unclaimed, EffectiveSteps, AcceptedTags;
      EditStep(campaign, start, Now(), state.(state := Running));
      state := state.(state := Running);
      hide Valid, IsClear, IsHalfClear, IsUnclaimed, Effective, StopRequested, Effects;
      var _ :- Heartbeat();
      var _ :- Emit();
      return Ok(());
    }

    // -------------------------------------------------------------- run and resume

    /** A process reads the status file. Whatever snapshot there was before is gone, and a commit
        that nobody recorded stays an orphan. */
    method Load()
      requires Valid()
      modifies `state, `open, `orphans
      ensures Valid() && state == disk && !open
      ensures Now() == Restarted(old(Now()))
    {
      hide Reached, EffectiveSteps;
      RestartStep(campaign, start, Now());
      state := disk;
      orphans := orphans + if open then 1 else 0;
      open := false;
    }

    /** The same, as the beginning of a run. */
    method LoadForRun()
      requires Valid()
      modifies `state, `open, `orphans, `start
      ensures Valid() && state == disk && !open && start == Now()
      ensures Now() == Restarted(old(Now()))
      ensures Continues(campaign, old(Now()), start)
      ensures Halted(campaign, start) ==> Frozen(campaign, start)
    {
      hide Reached, EffectiveSteps, Continues, Frozen;
      RestartStep(campaign, start, Now());
      Load();
      start := Now();
    }

    /** Unowned commits so far. */
    ghost function Unowned(): nat
      reads `open, `orphans
    {
      orphans + if open then 1 else 0
    }

    method Unpause()
      requires Valid()
      modifies `state
      ensures Valid() && state == old(state).(pauseRequested := false)
    {
      hide Reached, EffectiveSteps;
      UnpauseStep(campaign, start, Now());
      state := state.(pauseRequested := false);
    }

    /** Takes the lease over into the status and saves it. */
    method Claim(resume: bool) returns (r: Result<()>)
      requires Valid() && !open
      modifies `state, `disk, `log, `open, `mark, `time, `failedReads, `alive, `faults
      ensures Valid() && !open && Tallied() && old(Effective()) <= Effective()
      ensures state.state == old(state.state) && state.cancelRequested == old(state.cancelRequested)
      ensures r.Ok? && resume ==> !disk.pauseRequested && !state.pauseRequested
      ensures !resume ==> state.pauseRequested == old(state.pauseRequested)
      ensures !resume && old(StopRequested(disk)) ==> StopRequested(disk)
      ensures r.Ok? ==> state.leaseId.Some? && disk.leaseId == state.leaseId
    {
      hide Reached, EffectiveSteps, Clear, HalfClear, Unclaimed, AcceptedTags;
      if resume {
        Unpause();
      }
      var lease: nat := *;
      Update(state.(leaseId := Some(lease)));
      r := SaveWith(resume);
    }

    /** After an error the status is read again first; nothing else can be done if that fails. */
    method ClearAfterError()
      requires Valid()
      modifies `state, `disk, `log, `open, `orphans, `mark, `time, `failedReads, `alive, `faults
      ensures Valid() && Tallied() && Unowned() <= old(Unowned())
      ensures old(Effective()) <= Effective()
    {
      hide Reached, EffectiveSteps, Clear, HalfClear, Unclaimed, AcceptedTags, DurableUpTo;
      hide IsClear, IsHalfClear, IsUnclaimed, Effective;
      var loaded := Emit();
      if loaded.Ok? {
        Load();
        Update(state.(leaseId := None));
        var _ := Save();
      }
    }

    /** `clear_active_lease`: the lease id leaves the status, and the run's snapshot is dropped. */
    method ClearActiveLease(result: Result<bool>) returns (r: Result<bool>)
      requires Valid()
      modifies `state, `disk, `log, `open, `orphans, `mark, `time, `failedReads, `alive, `faults
      ensures Valid() && Tallied() && Unowned() <= old(Unowned())
      ensures r.Ok? ==> r == result
      ensures old(Effective()) <= Effective()
      ensures r == Ok(true) ==> forall n :: old(AcceptedUpTo(n)) ==> DurableUpTo(n)
      ensures r.Ok? ==> disk.leaseId == None
      ensures r.Ok? && old(state.state) != Running ==> disk.state != Running
      ensures r.Ok? && old(state.state) == Completed ==> disk.state == Completed || disk.cancelRequested
    {
      hide Heeding, Active;
      hide Reached, EffectiveSteps, Clear, HalfClear, Unclaimed, AcceptedTags, DurableUpTo;
      hide IsClear, IsHalfClear, IsUnclaimed, Effective;
      if result.Err? {
        ClearAfterError();
        return result;
      }
      Update(state.(leaseId := None));
      var _ :- Save();
      var _ :- Emit();
      Load();
      return result;
    }

    /** `run_internal`, by a fresh process; loading and acquiring the lease are one step. */
    method RunInternal(resume: bool) returns (r: Result<bool>)
      requires Valid()
      modifies this
      ensures Valid() && Continues(campaign, old(Now()), Now())
      ensures Tallied()
      ensures faults == old(faults) ==> Unowned() == old(Unowned())
      ensures r == Ok(true) ==> DurableUpTo(|old(Effective())|)
      ensures resume && old(disk.state) != Paused && old(disk.state) != Blocked && old(disk.state) != Running ==>
        r.Err? && disk == old(disk) && Idle()
      ensures !resume && old(disk.state) != Running && old(disk.state) != Paused ==> Idle()
      ensures !resume && old(StopRequested(disk)) ==> Idle()
      ensures old(disk.cancelRequested) ==> Idle()
      ensures r.Ok? ==> disk.leaseId == None && disk.state != Running
      ensures r == Ok(true) ==> disk.state == Completed || disk.cancelRequested
    {
      hide Reached, EffectiveSteps, Clear, HalfClear, Unclaimed, AcceptedTags, Continues, Frozen, Extends;
      hide AcceptedUpTo, DurableUpTo;
      hide IsClear, IsHalfClear, IsUnclaimed, Effective;
      assert CancelShows(disk) by { CancelsShow(); }
      alive := true;
      ContinuesReflexive(campaign, Now());
      var _ :- Emit();
      if resume && disk.state != Paused && disk.state != Blocked && disk.state != Running {
        return Err(false);
      }
      var _ :- Emit();
      ghost var before := Now();
      LoadForRun();
      r := RunLoaded(resume);
      assert Continues(campaign, start, Now()) by { ReachedExtends(); RunContinues(campaign, start, Now()); }
      OrphansGrow(start, Now());
      ContinuesTransitive(campaign, before, start, Now());
    }

    lemma ReachedExtends()
      requires Valid()
      ensures Extends(campaign, start, Now())
    {
    }

    lemma CancelsContinue(w: World, t: World)
      requires Continues(campaign, w, t)
      ensures w.disk.cancelRequested ==> t.disk.cancelRequested
    {
    }

    lemma OrphansGrow(w: World, t: World)
      requires Continues(campaign, w, t)
      ensures w.orphans <= t.orphans
    {
    }

    method RunLoaded(resume: bool) returns (r: Result<bool>)
      requires Valid() && !open
      modifies `clock, `state, `disk, `log, `branch, `open, `orphans, `mark, `time, `failedReads, `alive, `faults
      modifies `calls, `sleeps
      ensures Valid()
      ensures Tallied()
      ensures Unowned() <= old(Unowned()) || faults > old(faults)
      ensures r == Ok(true) ==> DurableUpTo(|old(Effective())|)
      ensures !resume && old(state.state) != Running && old(state.state) != Paused ==> Idle()
      ensures !resume && old(StopRequested(disk) && StopRequested(state)) ==> Idle()
      ensures r.Ok? ==> disk.leaseId == None && disk.state != Running
      ensures r == Ok(true) ==> disk.state == Completed || disk.cancelRequested
    {
      hide Reached, EffectiveSteps, Clear, HalfClear, Unclaimed, AcceptedTags, DurableUpTo;
      hide Valid, IsClear, IsHalfClear, IsUnclaimed, Effective, Effects;
      var _ :- Claim(resume);
      var result := RunWithLease(resume);
      var _ := Emit();
      r := ClearActiveLease(result);
    }

    // -------------------------------------------------------------- operation

    /** `start`, once the worktree exists. */
    constructor Create(campaign: CampaignDocument, commandAllowed: Policy, recovery: RecoveryLimits,
                       hasReviewer: bool, hasReasoner: bool, now: nat)
      requires ValidCampaign(campaign, commandAllowed) && Distinct(DocumentIds(campaign.steps))
      ensures this.campaign == campaign && this.commandAllowed == commandAllowed
      ensures Valid() && branch == [] && log == [] && disk == FirstStatus(campaign, now)
      ensures Unowned() == 0 && faults == 0
    {
      this.campaign := campaign;
      this.commandAllowed := commandAllowed;
      this.recovery := recovery;
      this.hasReviewer := hasReviewer;
      this.hasReasoner := hasReasoner;
      disk := FirstStatus(campaign, now);
      state := FirstStatus(campaign, now);
      log := [];
      branch := [];
      alive := true;
      time := now;
      open := false;
      orphans, mark, failedReads, faults, clock := 0, 0, 0, 0, 0;
      sleeps, calls := [], [];
      start := World(FirstStatus(campaign, now), [], [], FirstStatus(campaign, now), false, 0, [], 0, 0);
      new;
      hide Inv, Extends;
      FirstWorld(campaign, commandAllowed, now);
      ExtendsReflexive(campaign, start);
    }

    /** `start` refuses an invalid document and a campaign that exists. */
    static method Start(campaign: CampaignDocument, commandAllowed: Policy, recovery: RecoveryLimits,
                        hasReviewer: bool, hasReasoner: bool, present: bool, now: nat)
      returns (r: Result<CampaignRunner>)
      requires Distinct(DocumentIds(campaign.steps))
      ensures r.Ok? ==> ValidCampaign(campaign, commandAllowed) && !present
      ensures r.Ok? ==> fresh(r.value) && r.value.campaign == campaign && r.value.Valid() && r.value.branch == []
    {
      if !ValidCampaign(campaign, commandAllowed) || present {
        return Err(false);
      }
      var worktreeMade: bool := *;
      if !worktreeMade {
        return Err(false);
      }
      hide ValidCampaign, FirstStatus;
      var runner := new CampaignRunner.Create(campaign, commandAllowed, recovery, hasReviewer, hasReasoner, now);
      return Ok(runner);
    }

    /** Between runs no process holds a snapshot; the other writers go on. */
    method Interlude()
      requires Valid()
      modifies this
      ensures Valid() && Continues(campaign, old(Now()), Now())
      ensures Tallied() && faults == old(faults) && Unowned() == old(Unowned()) && Idle()
    {
      hide Reached, EffectiveSteps, Clear, HalfClear, Unclaimed, AcceptedTags, Continues, Frozen, Extends;
      hide IsClear, IsHalfClear, IsUnclaimed, Effective;
      ghost var before := Now();
      LoadForRun();
      Interfere();
      assert Continues(campaign, start, Now()) by { ReachedExtends(); RunContinues(campaign, start, Now()); }
      ContinuesTransitive(campaign, before, start, Now());
    }

    /** Any sequence of runs, resumptions and other writes. */
    method Operate()
      requires Valid()
      modifies this
      ensures Valid() && Continues(campaign, old(Now()), Now())
      ensures Tallied()
      ensures faults == old(faults) ==> Unowned() == old(Unowned())
      ensures old(disk.cancelRequested) ==> disk.cancelRequested && Idle()
    {
      hide Valid, Continues, Unowned;
      var rounds: nat := *;
      ContinuesReflexive(campaign, Now());
      while rounds > 0
        invariant Valid() && Continues(campaign, old(Now()), Now())
        invariant Tallied()
        invariant faults == old(faults) ==> Unowned() == old(Unowned())
        invariant old(disk.cancelRequested) ==> disk.cancelRequested && Idle()
      {
        ghost var before := Now();
        var runs: bool := *;
        if runs {
          var resume: bool := *;
          var _ := RunInternal(resume);
        } else {
          Interlude();
        }
        CancelsContinue(before, Now());
        ContinuesTransitive(campaign, old(Now()), before, Now());
        rounds := rounds - 1;
      }
    }
  }
}
