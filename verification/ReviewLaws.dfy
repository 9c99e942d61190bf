/**
 What the coordinator's review and the planning behind it decide, said without their order of
 questions: when an attempt is accepted, what each rejection stands for, and when an answer of
 the reasoner ends the step.
 */
module ReviewLaws {
  import opened Wrappers
  import opened Paths
  import opened PathAuthority
  import opened Campaign
  import opened Review

  // ---------------------------------------------------------------- acceptance

  /** Every change is a campaign path under an entry of the step's paths. */
  ghost predicate Inside(input: ReviewInput) {
    var changed := SourcePaths(input.changedPaths);
    && AllowedPaths(input.step.allowedPaths).Ok?
    && Parse(changed, |changed|)
    && forall p :: p in changed ==> Authorized(p, input.step.allowedPaths)
  }

  predicate UsedHostShell(input: ReviewInput) {
    input.result.Some? && input.result.value.usedHostShell
  }

  /** A timeout that leaves source changes of an implementation behind is no failure of the worker. */
  predicate WorkerFailed(input: ReviewInput) {
    && input.result.Some? && input.result.value.workerError.Some?
    && var error := input.result.value.workerError.value;
      if error.timeout then
        input.step.kind == Verification || SourcePaths(input.changedPaths) == []
      else
        error.executor || error.model
  }

  /** The worker answered through its tools. */
  predicate Protocol(input: ReviewInput) {
    input.result.Some? ==>
      !input.result.value.protocolError && (input.result.value.markdownCall ==> input.result.value.toolCalls > 0)
  }

  /** Something changed, and under every required path. */
  ghost predicate ReachesRequired(step: CampaignStep, changed: seq<string>) {
    && changed != []
    && (forall i :: 0 <= i < |step.requiredPaths| ==> ChangedUnder(changed, step.requiredPaths[i]))
  }

  /** And under an artifact, too, if any is required. */
  ghost predicate Delivered(step: CampaignStep, changed: seq<string>) {
    && ReachesRequired(step, changed)
    && (step.requiredArtifacts == [] ||
        exists i :: 0 <= i < |step.requiredArtifacts| && ChangedUnder(changed, step.requiredArtifacts[i]))
  }

  /** An attempt is accepted exactly if its changes are inside, its worker kept to its tools and did
      not fail, its commands passed, its artifacts are there, and an implementation has delivered. */
  lemma AcceptedIff(input: ReviewInput)
    ensures ReviewAttempt(input).disposition == Accepted <==>
      && !UsedHostShell(input) && Inside(input) && !WorkerFailed(input) && Protocol(input)
      && input.commandsSucceeded && !input.missingArtifacts
      && (input.step.kind == Implementation ==> Delivered(input.step, SourcePaths(input.changedPaths)))
    ensures ReviewAttempt(input).disposition == Accepted ==> ReviewAttempt(input).classification == None
  {
    var changed := SourcePaths(input.changedPaths);
    hide SourcePaths, Parse, Authorized, ChangedUnder, AllowedPaths, AssertAuthorizedPaths, RequiredPrefixSatisfied;
    AssertedIff(changed, input.step.allowedPaths);
    if Parse(changed, |changed|) {
      forall required | true
        ensures RequiredPrefixSatisfied(changed, required) == Ok(true) <==> ChangedUnder(changed, required)
      {
        RequiredPrefixIff(changed, required);
      }
    }
  }

  /** A rejection that ends the step is about the host shell, the paths or the executor; every other
      one can be tried again and says what was wrong. */
  lemma RejectionMeans(input: ReviewInput)
    ensures var verdict := ReviewAttempt(input);
      && (verdict.disposition == RejectedTerminal <==>
          UsedHostShell(input) || !Inside(input) || verdict.classification == Some(ExecutorUnavailable))
      && (verdict.classification == Some(PathPolicyFailed) <==> !UsedHostShell(input) && !Inside(input))
      && (verdict.disposition == RejectedRetryable ==>
          verdict.classification.Some? && verdict.classification.value.Retryable())
      && (verdict.classification == Some(AcceptanceFailed) ==> !input.commandsSucceeded)
      && (verdict.classification == Some(ArtifactMissing) ==> input.missingArtifacts)
      && (verdict.classification == Some(ToolProtocolViolation) ==> !Protocol(input))
      && (verdict.classification == Some(WorkerTimeout) ==>
          WorkerFailed(input) && input.result.value.workerError.value.timeout)
      && (verdict.classification == Some(ModelUnavailable) ==>
          WorkerFailed(input) && !input.result.value.workerError.value.timeout)
      && (verdict.classification == Some(NoChange) ==>
          input.step.kind == Implementation && !ReachesRequired(input.step, SourcePaths(input.changedPaths)))
      && (verdict.classification == Some(InadequateImplementation) ==>
          && input.step.kind == Implementation && ReachesRequired(input.step, SourcePaths(input.changedPaths))
          && !Delivered(input.step, SourcePaths(input.changedPaths)))
  {
    var changed := SourcePaths(input.changedPaths);
    hide SourcePaths, Parse, Authorized, ChangedUnder, AllowedPaths, AssertAuthorizedPaths, RequiredPrefixSatisfied;
    AssertedIff(changed, input.step.allowedPaths);
    if Parse(changed, |changed|) {
      forall required | true
        ensures RequiredPrefixSatisfied(changed, required) == Ok(true) <==> ChangedUnder(changed, required)
      {
        RequiredPrefixIff(changed, required);
      }
    }
  }

  /** Policy, authority, expiry and the operator are no failures that another attempt can mend. */
  lemma NotRetryable(classification: FailureClassification)
    ensures classification.Retryable() <==>
      classification !in {PathPolicyFailed, ReviewerTimeout, ReviewerFailure, RecoveryFailure, ExecutorUnavailable,
        CampaignExpired, OperatorPaused, OperatorCancelled, ContinuityFailed, InsufficientAuthority}
  {
  }

  /** A rejection lets the step go on exactly if it could be tried again and its kind of failure can; and
      nothing but the ending is changed. */
  lemma DemotedIff(verdict: CoordinatorVerdict)
    ensures Demoted(verdict).disposition == RejectedRetryable <==>
      && verdict.disposition == RejectedRetryable
      && (verdict.classification.None? || verdict.classification.value.Retryable())
    ensures Demoted(verdict).classification == verdict.classification
    ensures Demoted(verdict).disposition == Accepted <==> verdict.disposition == Accepted
  {
  }

  /** A rejection without a classification can be tried again, and a reasoner is asked about it at once. */
  lemma UnclassifiedIsDiagnosed(verdict: CoordinatorVerdict)
    requires verdict.classification == None
    ensures Classified(verdict).Retryable() && ShouldDiagnose(Classified(verdict), 0)
  {
  }

  // ---------------------------------------------------------------- planning

  /** The failures that a reasoner is asked about: those with evidence at once, those without when
      they repeat, those of the machinery never. */
  predicate Diagnosable(classification: FailureClassification, repeated: bool) {
    match classification
    case AcceptanceFailed => true
    case ArtifactMissing => true
    case InadequateImplementation => true
    case NoChange => repeated
    case ToolProtocolViolation => repeated
    case _ => false
  }

  /** What planning makes of a failure, for every answer of the reasoner: no answer, an answer that
      blocks, and a wish for a fallback attempt that is not left end the step; nothing else does. */
  lemma PlanOutcome(plan: Plan, verdict: CoordinatorVerdict, hasReasoner: bool, last: Option<string>, lastCount: nat,
                    fallbackLeft: nat)
    requires Planned(plan, verdict, hasReasoner, last, lastCount, fallbackLeft)
    ensures var asked := hasReasoner && Diagnosable(Classified(verdict), last == Some(plan.fingerprint));
      && (!asked ==> plan.decision == None && !plan.preferFallback && plan.verdict == verdict)
      && (asked && plan.decision == None ==> plan.verdict == Terminate(RecoveryFailure))
      && (asked && plan.decision.Some? ==>
          var decision := plan.decision.value;
          var stuck := last == Some(plan.fingerprint) && decision == Decision(RepairDecision, SameWorker);
          && (plan.preferFallback <==> stuck || decision.worker == FallbackWorker)
          && (plan.preferFallback && fallbackLeft == 0 ==> plan.verdict == Terminate(RecoveryFailure))
          && (!(plan.preferFallback && fallbackLeft == 0) ==>
              plan.verdict ==
                if decision.kind == BlockInsufficientAuthority then Terminate(InsufficientAuthority)
                else if decision.kind == BlockTerminal then Terminate(RecoveryFailure)
                else verdict))
    ensures plan.repeated == if last == Some(plan.fingerprint) then lastCount + 1 else 0
  {
  }

  // ---------------------------------------------------------------- picking

  /** The loop stops exactly when no attempt is left to it, and otherwise takes the primary worker
      first, the fallback when it is wanted, repairs before it when it is not. */
  lemma PickMeans(standing: Standing)
    ensures Pick(standing) == None <==> Remaining(standing) == 0
    ensures Pick(standing).Some? ==>
      var (kind, left) := Pick(standing).value;
      && (kind == Primary <==> standing.first && standing.budget.primary > 0)
      && (kind == Fallback && standing.budget.repair > 0 ==> standing.preferFallback)
      && (kind == Repair ==> !(standing.preferFallback && standing.budget.fallback > 0))
      && left.primary + (if kind == Primary then 1 else 0) == standing.budget.primary
      && left.repair + (if kind == Repair then 1 else 0) == standing.budget.repair
      && left.fallback + (if kind == Fallback then 1 else 0) == standing.budget.fallback
  {
  }
}
