/**
 The campaign document, its durable status, and the checks a document or a revision must
 pass before its steps exist.
 */
module Campaign {
  import opened Wrappers
  import opened Paths

  /** A git object id; the source only ever compares ids for equality. */
  type Sha = nat

  datatype StepKind = Implementation | Verification

  datatype AttemptKind = Primary | Repair | Fallback | VerificationRun

  datatype CampaignState = Paused | Running | Completed | Failed | Blocked | Cancelled | Expired

  datatype Disposition = Accepted | RejectedRetryable | RejectedTerminal

  datatype FailureClassification =
    | ToolProtocolViolation | NoChange | PathPolicyFailed | AcceptanceFailed | ArtifactMissing
    | WorkerTimeout | ReviewerTimeout | ReviewerFailure | RecoveryFailure | ExecutorUnavailable
    | ModelUnavailable | CampaignExpired | OperatorPaused | OperatorCancelled | ContinuityFailed
    | InsufficientAuthority | InadequateImplementation
  {
    predicate Retryable() {
      || ToolProtocolViolation? || NoChange? || AcceptanceFailed? || ArtifactMissing?
      || WorkerTimeout? || ModelUnavailable? || InadequateImplementation?
    }
  }

  // ---------------------------------------------------------------- documents

  datatype CampaignStep = CampaignStep(
    id: string, kind: StepKind, task: string,
    allowedPaths: seq<string>, requiredPaths: seq<string>,
    commands: seq<seq<string>>, requiredArtifacts: seq<string>,
    timeoutSeconds: nat, networkDisabled: bool)

  datatype WorkerPolicy = WorkerPolicy(
    primary: string, fallback: string,
    primaryAttempts: nat, repairAttempts: nat, fallbackAttempts: nat)

  datatype Limits = Limits(maxRuntimeSeconds: nat, maxSteps: nat, maxTotalAttempts: nat)

  datatype CampaignDocument = CampaignDocument(
    baseSha: Sha, permittedPaths: seq<string>, limits: Limits,
    policy: WorkerPolicy, steps: seq<CampaignStep>)

  datatype RevisionDocument = RevisionDocument(instruction: string, steps: seq<CampaignStep>)

  // ---------------------------------------------------------------- durable status

  datatype StepAttempt = StepAttempt(
    attempt: nat, worker: string, kind: AttemptKind,
    disposition: Disposition, classification: Option<FailureClassification>,
    commit: Option<Sha>, repairOf: Option<nat>, fallbackOf: Option<nat>)

  datatype StepDisposition = StepPending | StepRejected | StepBlocked | StepAccepted

  datatype StepStatus = StepStatus(
    stepId: string, kind: StepKind, disposition: StepDisposition,
    review: Option<Disposition>, attempts: seq<StepAttempt>, acceptedCommit: Option<Sha>)

  datatype RevisionRecord = RevisionRecord(instruction: string, addedStepIds: seq<string>, recordedAt: nat)

  datatype Action =
    | Started | PausedAction | StepStarted | CompletedAction | BlockedAction | Recovering
    | ModelRequest | RepairRequest | FallbackRequest | AcceptanceCommand | GitInspect
    | CoordinatorReview | ReviewRetryWait | RecoveryDiagnosis | DependencyRecoveryWait
    | PreCommitInspect | GitCommit

  /** What the runner says it is doing; every writer may overwrite it. */
  datatype Activity = Activity(
    stepId: Option<string>, attempt: nat, worker: Option<string>, action: Action,
    lastHeartbeat: nat, lastProgress: nat)

  datatype CampaignStatus = CampaignStatus(
    headSha: Sha, state: CampaignState, activity: Activity,
    pauseRequested: bool, cancelRequested: bool,
    startTime: nat, endTime: Option<nat>, remainingSeconds: nat,
    steps: seq<StepStatus>, revisions: seq<RevisionRecord>,
    leaseId: Option<nat>, containerId: Option<string>,
    errorMessage: Option<string>, blockedReason: Option<FailureClassification>)

  function PendingStep(step: CampaignStep): StepStatus {
    StepStatus(step.id, step.kind, StepPending, None, [], None)
  }

  function PendingSteps(steps: seq<CampaignStep>): (pending: seq<StepStatus>)
    ensures |pending| == |steps|
    ensures forall i :: 0 <= i < |steps| ==> pending[i] == PendingStep(steps[i])
  {
    seq(|steps|, i requires 0 <= i < |steps| => PendingStep(steps[i]))
  }

  function DocumentIds(steps: seq<CampaignStep>): (ids: seq<string>)
    ensures |ids| == |steps|
    ensures forall i :: 0 <= i < |steps| ==> ids[i] == steps[i].id
  {
    seq(|steps|, i requires 0 <= i < |steps| => steps[i].id)
  }

  function StepIds(steps: seq<StepStatus>): (ids: seq<string>)
    ensures |ids| == |steps|
    ensures forall i :: 0 <= i < |steps| ==> ids[i] == steps[i].stepId
  {
    seq(|steps|, i requires 0 <= i < |steps| => steps[i].stepId)
  }

  ghost predicate Distinct(ids: seq<string>) {
    forall i, j :: 0 <= i < j < |ids| ==> ids[i] != ids[j]
  }

  predicate HasStep(steps: seq<StepStatus>, id: string) {
    exists i :: 0 <= i < |steps| && steps[i].stepId == id
  }

  // ---------------------------------------------------------------- validation

  /** `validate_step`; the command policy is a parameter. */
  predicate ValidStep(step: CampaignStep, commandAllowed: seq<string> -> bool) {
    && Trim(step.task) != ""
    && step.allowedPaths != []
    && step.commands != []
    && 0 < step.timeoutSeconds <= 900
    && step.networkDisabled
    && (step.kind == Implementation <==> step.requiredPaths != [])
    && forall i :: 0 <= i < |step.commands| ==> commandAllowed(step.commands[i])
  }

  predicate StepPermitted(step: CampaignStep, permitted: seq<string>) {
    AssertStepPathsPermitted(step.allowedPaths, step.requiredPaths, permitted).Ok?
  }

  /** The parts of `validate_document` that do not ask another system. */
  predicate ValidCampaign(campaign: CampaignDocument, commandAllowed: seq<string> -> bool) {
    && campaign.permittedPaths != []
    && CampaignPaths(campaign.permittedPaths).Ok?
    && 60 <= campaign.limits.maxRuntimeSeconds <= 172800
    && 1 <= campaign.limits.maxSteps <= 16
    && 1 <= campaign.limits.maxTotalAttempts <= 32
    && 1 <= |campaign.steps| <= campaign.limits.maxSteps
    && forall i :: 0 <= i < |campaign.steps| ==>
         StepPermitted(campaign.steps[i], campaign.permittedPaths) && ValidStep(campaign.steps[i], commandAllowed)
  }

  /** `effective_steps`: the campaign's steps and those of every logged revision, in order. */
  function EffectiveSteps(campaign: CampaignDocument, log: seq<RevisionDocument>): seq<CampaignStep> {
    if log == [] then
      campaign.steps
    else
      EffectiveSteps(campaign, log[..|log| - 1]) + log[|log| - 1].steps
  }

  /** Every check `revise` makes before it appends to the log. */
  predicate CanRevise(campaign: CampaignDocument, status: CampaignStatus, revision: RevisionDocument,
                      commandAllowed: seq<string> -> bool)
  {
    && (status.state == Paused || status.state == Blocked)
    && Trim(revision.instruction) != ""
    && revision.steps != []
    && (forall i :: 0 <= i < |revision.steps| ==>
          && ValidStep(revision.steps[i], commandAllowed)
          && StepPermitted(revision.steps[i], campaign.permittedPaths)
          && !HasStep(status.steps, revision.steps[i].id)
          && revision.steps[i].id !in DocumentIds(campaign.steps))
    && |status.steps| + |revision.steps| <= campaign.limits.maxSteps
  }
}
