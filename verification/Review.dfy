/**
 The coordinator's review of an attempt and the planning of the next one. Error texts are
 reduced to the substring tests the source makes on them.
 */
module Review {
  import opened Wrappers
  import opened Paths
  import opened PathAuthority
  import opened Campaign
  import opened History

  // ---------------------------------------------------------------- reviewing an attempt

  /** Which of the tested words a worker error contains. */
  datatype WorkerError = WorkerError(timeout: bool, executor: bool, model: bool, transport: bool)

  datatype ImplementResult = ImplementResult(
    protocolError: bool, workerError: Option<WorkerError>, toolCalls: nat,
    markdownCall: bool, usedHostShell: bool)

  datatype ReviewInput = ReviewInput(
    step: CampaignStep, changedPaths: seq<string>, commandsSucceeded: bool, missingArtifacts: bool,
    result: Option<ImplementResult>)

  datatype CoordinatorVerdict = CoordinatorVerdict(
    disposition: Disposition, classification: Option<FailureClassification>)

  function Reject(classification: FailureClassification): CoordinatorVerdict {
    CoordinatorVerdict(RejectedRetryable, Some(classification))
  }

  function Terminate(classification: FailureClassification): CoordinatorVerdict {
    CoordinatorVerdict(RejectedTerminal, Some(classification))
  }

  function ReviewAttempt(input: ReviewInput): CoordinatorVerdict {
    var changed := SourcePaths(input.changedPaths);
    if input.result.Some? && input.result.value.usedHostShell then
      Terminate(ExecutorUnavailable)
    else if AssertAuthorizedPaths(changed, input.step.allowedPaths).Err? then
      Terminate(PathPolicyFailed)
    else
      match WorkerVerdict(input, changed)
      case Some(verdict) => verdict
      case None =>
        if input.result.Some? && input.result.value.protocolError then
          Reject(ToolProtocolViolation)
        else if input.result.Some? && input.result.value.toolCalls == 0 && input.result.value.markdownCall then
          Reject(ToolProtocolViolation)
        else if input.step.kind == Implementation then
          ReviewImplementation(input, changed)
        else
          ReviewVerification(input)
  }

  /** A timeout after source changes is still worth reviewing; other worker errors are not. */
  function WorkerVerdict(input: ReviewInput, changed: seq<string>): Option<CoordinatorVerdict> {
    if input.result.None? || input.result.value.workerError.None? then
      None
    else
      var error := input.result.value.workerError.value;
      if error.timeout && input.step.kind == Implementation && changed != [] then
        None
      else if error.timeout then
        Some(Reject(WorkerTimeout))
      else if error.executor then
        Some(Terminate(ExecutorUnavailable))
      else if error.model then
        Some(Reject(ModelUnavailable))
      else
        None
  }

  predicate RequiredPathsChanged(required: seq<string>, changed: seq<string>) {
    forall i :: 0 <= i < |required| ==> RequiredPrefixSatisfied(changed, required[i]) == Ok(true)
  }

  predicate RequiredArtifactsChanged(artifacts: seq<string>, changed: seq<string>) {
    artifacts == [] || exists i :: 0 <= i < |artifacts| && RequiredPrefixSatisfied(changed, artifacts[i]) == Ok(true)
  }

  function ReviewImplementation(input: ReviewInput, changed: seq<string>): CoordinatorVerdict {
    if changed == [] then
      Reject(NoChange)
    else if !RequiredPathsChanged(input.step.requiredPaths, changed) then
      Reject(NoChange)
    else if input.missingArtifacts then
      Reject(ArtifactMissing)
    else if !input.commandsSucceeded then
      Reject(AcceptanceFailed)
    else if !RequiredArtifactsChanged(input.step.requiredArtifacts, changed) then
      Reject(InadequateImplementation)
    else
      CoordinatorVerdict(Accepted, None)
  }

  function ReviewVerification(input: ReviewInput): CoordinatorVerdict {
    if input.missingArtifacts then
      Reject(ArtifactMissing)
    else if !input.commandsSucceeded then
      Reject(AcceptanceFailed)
    else
      CoordinatorVerdict(Accepted, None)
  }

  /** Whatever the review accepts stays inside the step's paths; an implementation it accepts
      changed something, did so through tools, and passed its commands. */
  lemma AcceptedMeans(input: ReviewInput)
    requires ReviewAttempt(input).disposition == Accepted
    ensures forall p :: p in SourcePaths(input.changedPaths) ==> Authorized(p, input.step.allowedPaths)
    ensures input.commandsSucceeded && !input.missingArtifacts
    ensures input.step.kind == Implementation ==>
      var changed := SourcePaths(input.changedPaths);
      && changed != [] && RequiredPathsChanged(input.step.requiredPaths, changed)
      && forall i :: 0 <= i < |input.step.requiredPaths| ==> ChangedUnder(changed, input.step.requiredPaths[i])
    ensures input.result.Some? ==> !input.result.value.usedHostShell && !input.result.value.protocolError
  {
    var changed := SourcePaths(input.changedPaths);
    hide AssertAuthorizedPaths, Authorized, SourcePaths, RequiredPathsChanged, RequiredArtifactsChanged, ChangedUnder;
    AssertedPathsAreAuthorized(changed, input.step.allowedPaths);
    if input.step.kind == Implementation {
      RequiredMeansChanged(input.step.requiredPaths, changed);
    }
  }

  /** What was seen of an attempt: the paths that had changed when its inspection began, how each
      acceptance command ended, and which artifacts were missing. */
  datatype Evidence = Evidence(changed: seq<string>, results: seq<bool>, missing: seq<string>)

  /** Every acceptance command has run and succeeded, and no artifact is missing. */
  predicate Passed(step: CampaignStep, evidence: Evidence) {
    |evidence.results| == |step.commands| && false !in evidence.results && evidence.missing == []
  }

  /** The review is told what the commands came to. */
  predicate Counted(input: ReviewInput, evidence: Evidence) {
    && |evidence.results| == |input.step.commands|
    && (input.commandsSucceeded <==> Passed(input.step, evidence))
    && (input.missingArtifacts <==> evidence.missing != [])
  }

  predicate LooksProtocol(result: ImplementResult) {
    result.protocolError || result.markdownCall
  }

  /** The commands of an implementation are run only if something had changed, or if the reply looks
      like a broken protocol. */
  predicate Inspected(input: ReviewInput, result: ImplementResult, evidence: Evidence) {
    && input.result == Some(result)
    && if SourcePaths(evidence.changed) != [] || LooksProtocol(result) then
         Counted(input, evidence)
       else
         input.commandsSucceeded && !input.missingArtifacts
  }

  /** An implementation is accepted only if its commands passed, or nothing had changed when they were due. */
  lemma AcceptedPassed(input: ReviewInput, evidence: Evidence)
    requires input.result.Some? && Inspected(input, input.result.value, evidence)
    requires ReviewAttempt(input).disposition == Accepted
    ensures SourcePaths(evidence.changed) == [] || Passed(input.step, evidence)
  {
    hide ReviewAttempt, SourcePaths;
    AcceptedMeans(input);
  }

  lemma VerifiedPassed(input: ReviewInput, evidence: Evidence)
    requires Counted(input, evidence) && ReviewAttempt(input).disposition == Accepted
    ensures Passed(input.step, evidence)
  {
    hide ReviewAttempt;
    AcceptedMeans(input);
  }

  lemma RequiredMeansChanged(required: seq<string>, changed: seq<string>)
    requires RequiredPathsChanged(required, changed)
    ensures forall i :: 0 <= i < |required| ==> ChangedUnder(changed, required[i])
  {
    hide ChangedUnder, RequiredPrefixSatisfied;
    forall i | 0 <= i < |required|
      ensures ChangedUnder(changed, required[i])
    {
      RequiredPrefixMeans(changed, required[i]);
    }
  }

  /** The changes a commit for `step` may consist of. */
  ghost predicate MayCommit(step: CampaignStep, changed: seq<string>) {
    && changed != []
    && RequiredPathsChanged(step.requiredPaths, changed)
    && forall p :: p in changed ==> !IsEphemeral(p) && Authorized(p, step.allowedPaths)
  }

  lemma AcceptedMayCommit(input: ReviewInput)
    requires ReviewAttempt(input).disposition == Accepted && input.step.kind == Implementation
    ensures MayCommit(input.step, SourcePaths(input.changedPaths))
  {
    hide ReviewAttempt, Authorized, IsEphemeral, RequiredPathsChanged;
    AcceptedMeans(input);
  }

  // ---------------------------------------------------------------- planning a retry

  datatype RecoveryKind = RepairDecision | Replan | BlockInsufficientAuthority | BlockTerminal | RetryTransient

  datatype WorkerChoice = SameWorker | FallbackWorker

  datatype Decision = Decision(kind: RecoveryKind, worker: WorkerChoice)

  datatype Plan = Plan(
    verdict: CoordinatorVerdict, preferFallback: bool, fingerprint: string, repeated: nat,
    decision: Option<Decision>)

  /** `should_diagnose_retryable_failure` */
  predicate ShouldDiagnose(classification: FailureClassification, repeated: nat) {
    || classification.AcceptanceFailed? || classification.ArtifactMissing? || classification.InadequateImplementation?
    || ((classification.NoChange? || classification.ToolProtocolViolation?) && repeated > 0)
  }

  function Repeats(fingerprint: string, last: Option<string>, lastCount: nat): nat {
    if last == Some(fingerprint) then lastCount + 1 else 0
  }

  /** A second same-strategy repair of the same failure is replaced by a fallback replan. */
  function Unstuck(decision: Decision, repeated: nat): Decision {
    if repeated > 0 && decision.kind == RepairDecision && decision.worker == SameWorker then
      Decision(Replan, FallbackWorker)
    else
      decision
  }

  /** The plan without a reasoner's diagnosis. */
  function DefaultPlan(verdict: CoordinatorVerdict, fingerprint: string, repeated: nat): Plan {
    Plan(verdict, false, fingerprint, repeated, None)
  }

  /** The plan after `diagnose` answered; it failed closed when the answer is `None`. */
  function DiagnosedPlan(verdict: CoordinatorVerdict, fingerprint: string, repeated: nat,
                         answer: Option<Decision>, fallbackLeft: nat): Plan
  {
    match answer
    case None => Plan(Terminate(RecoveryFailure), false, fingerprint, repeated, None)
    case Some(raw) =>
      var decision := Unstuck(raw, repeated);
      var prefer := decision.worker == FallbackWorker;
      var planned :=
        if prefer && fallbackLeft == 0 then
          Terminate(RecoveryFailure)
        else
          match decision.kind
          case BlockInsufficientAuthority => Terminate(InsufficientAuthority)
          case BlockTerminal => Terminate(RecoveryFailure)
          case _ => verdict;
      Plan(planned, prefer, fingerprint, repeated, Some(raw))
  }

  function Classified(verdict: CoordinatorVerdict): FailureClassification {
    if verdict.classification.Some? then verdict.classification.value else InadequateImplementation
  }

  /** `plan` is what planning makes of `verdict`, whatever the reasoner answered. */
  predicate Planned(plan: Plan, verdict: CoordinatorVerdict, hasReasoner: bool, last: Option<string>, lastCount: nat,
                    fallbackLeft: nat)
  {
    && plan.repeated == Repeats(plan.fingerprint, last, lastCount)
    && plan ==
       if ShouldDiagnose(Classified(verdict), plan.repeated) && hasReasoner then
         DiagnosedPlan(verdict, plan.fingerprint, plan.repeated, plan.decision, fallbackLeft)
       else
         DefaultPlan(verdict, plan.fingerprint, plan.repeated)
  }

  lemma DefaultIsPlanned(verdict: CoordinatorVerdict, fingerprint: string, hasReasoner: bool, last: Option<string>,
                         lastCount: nat, fallbackLeft: nat)
    requires !ShouldDiagnose(Classified(verdict), Repeats(fingerprint, last, lastCount)) || !hasReasoner
    ensures Planned(DefaultPlan(verdict, fingerprint, Repeats(fingerprint, last, lastCount)),
              verdict, hasReasoner, last, lastCount, fallbackLeft)
  {
  }

  lemma DiagnosedIsPlanned(verdict: CoordinatorVerdict, fingerprint: string, answer: Option<Decision>,
                           hasReasoner: bool,
                           last: Option<string>, lastCount: nat, fallbackLeft: nat)
    requires ShouldDiagnose(Classified(verdict), Repeats(fingerprint, last, lastCount)) && hasReasoner
    ensures Planned(DiagnosedPlan(verdict, fingerprint, Repeats(fingerprint, last, lastCount), answer, fallbackLeft),
              verdict, hasReasoner, last, lastCount, fallbackLeft)
  {
    hide ShouldDiagnose;
  }

  /** A retryable verdict whose classification is not retryable ends the step. */
  function Demoted(verdict: CoordinatorVerdict): CoordinatorVerdict {
    if verdict.disposition == RejectedRetryable && verdict.classification.Some?
      && !verdict.classification.value.Retryable() then
      verdict.(disposition := RejectedTerminal)
    else
      verdict
  }

  /** The repeat count is positive only after the same failure, and a plan that lets the loop
      go on has a fallback attempt left whenever it wants one. */
  lemma PlanMeans(plan: Plan, verdict: CoordinatorVerdict, hasReasoner: bool, last: Option<string>, lastCount: nat,
                  fallbackLeft: nat)
    requires Planned(plan, verdict, hasReasoner, last, lastCount, fallbackLeft)
    ensures plan.repeated == Repeats(plan.fingerprint, last, lastCount)
    ensures plan.repeated > 0 <==> last == Some(plan.fingerprint)
    ensures plan.verdict.disposition == RejectedRetryable && WantsFallback(plan) ==>
      plan.preferFallback && fallbackLeft > 0
    ensures plan.preferFallback ==> WantsFallback(plan)
    ensures plan.verdict.disposition == Accepted ==> verdict.disposition == Accepted
  {
  }

  /** What an attempt's final verdict and plan guarantee the loop. */
  predicate Judged(input: ReviewInput, last: Option<string>, lastCount: nat, fallbackLeft: nat,
                   verdict: CoordinatorVerdict, plan: Option<Plan>)
  {
    && (verdict.disposition == Accepted ==> ReviewAttempt(input).disposition == Accepted)
    && (verdict.disposition == RejectedRetryable ==> plan.Some?)
    && RepeatCounted(Turn(Primary, plan, ReviewAttempt(input).disposition == Accepted), last, lastCount)
    && (verdict.disposition == RejectedRetryable ==>
          WantsFallback(plan.value) ==> plan.value.preferFallback && fallbackLeft > 0)
    && (plan.Some? ==> plan.value.preferFallback ==> WantsFallback(plan.value))
    && (plan.Some? ==> verdict == Demoted(plan.value.verdict))
  }

  /** How the verdict comes about: from the coordinator's review, from the model reviewer if the
      coordinator accepts, and from the plan if there is to be a retry. A failure that the model reviewer
      found does not count as a repetition. */
  predicate Concluded(input: ReviewInput, hasReviewer: bool, hasReasoner: bool, last: Option<string>, lastCount: nat,
                      fallbackLeft: nat, reviewed: CoordinatorVerdict, verdict: CoordinatorVerdict,
                      plan: Option<Plan>)
  {
    var accepted := ReviewAttempt(input).disposition == Accepted;
    && ((accepted && hasReviewer) || reviewed == ReviewAttempt(input))
    && (plan.Some? <==> reviewed.disposition == RejectedRetryable)
    && match plan
       case None => verdict == reviewed
       case Some(plan) =>
         && verdict == Demoted(plan.verdict)
         && Planned(plan, reviewed, hasReasoner, if accepted then None else last, if accepted then 0 else lastCount,
              fallbackLeft)
  }

  // ---------------------------------------------------------------- picking the next attempt

  datatype Budget = Budget(primary: nat, repair: nat, fallback: nat)

  /** The attempt the loop makes next, and the budget it leaves. */
  function NextAttempt(budget: Budget, first: bool, preferFallback: bool): Option<(AttemptKind, Budget)> {
    if first && budget.primary > 0 then
      Some((Primary, budget.(primary := budget.primary - 1)))
    else if preferFallback && budget.fallback > 0 then
      Some((Fallback, budget.(fallback := budget.fallback - 1)))
    else if budget.repair > 0 then
      Some((Repair, budget.(repair := budget.repair - 1)))
    else if budget.fallback > 0 then
      Some((Fallback, budget.(fallback := budget.fallback - 1)))
    else
      None
  }

  /** One pass of the attempt loop: what was attempted, how its failure was planned, and whether it was
      the model reviewer that rejected what the coordinator would have accepted. */
  datatype Turn = Turn(kind: AttemptKind, plan: Option<Plan>, byModel: bool)

  function CountKind(turns: seq<Turn>, kind: AttemptKind): nat {
    if turns == [] then
      0
    else
      CountKind(turns[..|turns| - 1], kind) + if turns[|turns| - 1].kind == kind then 1 else 0
  }

  /** The reasoner asked for the fallback worker, or repeated a same-worker repair. */
  predicate WantsFallback(plan: Plan) {
    plan.decision.Some? && Unstuck(plan.decision.value, plan.repeated).worker == FallbackWorker
  }

  // ---------------------------------------------------------------- what the passes leave on record

  /** An attempt that has been started and not recorded yet. */
  datatype Launch = Launch(
    number: nat, kind: AttemptKind, worker: string, repairOf: Option<nat>, fallbackOf: Option<nat>)
  {
    function Record(verdict: CoordinatorVerdict, commit: Option<Sha>): StepAttempt {
      StepAttempt(number, worker, kind, verdict.disposition, verdict.classification, commit, repairOf, fallbackOf)
    }
  }

  /** The new record is that of the launch. */
  predicate Appends(before: seq<StepAttempt>, after: seq<StepAttempt>, launch: Launch) {
    && |after| == |before| + 1
    && after[..|before|] == before
    && var record := after[|before|];
      && record.attempt == launch.number && record.kind == launch.kind && record.worker == launch.worker
      && record.repairOf == launch.repairOf && record.fallbackOf == launch.fallbackOf
  }

  /** The last record says what the verdict was, and names the commit. */
  predicate Records(attempts: seq<StepAttempt>, verdict: CoordinatorVerdict, commit: Option<Sha>) {
    && attempts != []
    && var last := attempts[|attempts| - 1];
      && last.disposition == verdict.disposition && last.classification == verdict.classification
      && last.commit == commit
  }

  lemma RecordAppends(steps: seq<StepStatus>, i: nat, launch: Launch, verdict: CoordinatorVerdict,
                      commit: Option<Sha>, disposition: StepDisposition)
    requires i < |steps|
    ensures var attempts := WithAttempt(steps, i, launch.Record(verdict, commit), disposition)[i].attempts;
      Appends(steps[i].attempts, attempts, launch) && Records(attempts, verdict, commit)
  {
  }

  predicate AppendsAtMost(before: seq<StepAttempt>, after: seq<StepAttempt>, launch: Launch) {
    after == before || Appends(before, after, launch)
  }

  /** What the `k`-th record continues: the one before it, or nothing when the loop had made none. */
  predicate Linked(before: seq<StepAttempt>, after: seq<StepAttempt>, k: nat)
    requires |before| <= k < |after|
  {
    var previous := Some(if k == |before| then 0 else after[k - 1].attempt);
    match after[k].kind
    case Repair => after[k].repairOf == previous && after[k].fallbackOf == None
    case Fallback => after[k].fallbackOf == previous && after[k].repairOf == None
    case _ => after[k].repairOf == None && after[k].fallbackOf == None
  }

  /** The records since `before` are those of the passes: kind by kind, by the worker of the kind, and
      each continuing the one before it. Only the last pass may have ended without one. */
  predicate Mirrors(before: seq<StepAttempt>, after: seq<StepAttempt>, turns: seq<Turn>, policy: WorkerPolicy) {
    && before <= after
    && |after| <= |before| + |turns| <= |after| + 1
    && (forall k :: |before| <= k < |after| ==> after[k].kind == turns[k - |before|].kind)
    && (forall k :: |before| <= k < |after| ==>
          after[k].worker == if after[k].kind == Fallback then policy.fallback else policy.primary)
    && (forall k :: |before| <= k < |after| ==> Linked(before, after, k))
  }

  lemma MirrorsNone(attempts: seq<StepAttempt>, policy: WorkerPolicy)
    ensures Mirrors(attempts, attempts, [], policy)
  {
  }

  function LaunchOf(standing: Standing, kind: AttemptKind, number: nat, policy: WorkerPolicy): Launch {
    match kind
    case Fallback => Launch(number, kind, policy.fallback, None, Some(standing.lastAttempt))
    case Repair => Launch(number, kind, policy.primary, Some(standing.lastAttempt), None)
    case _ => Launch(number, kind, policy.primary, None, None)
  }

  /** `previous` is the number of the last of the records that the loop has made. */
  predicate LastRecorded(before: seq<StepAttempt>, between: seq<StepAttempt>, previous: nat) {
    previous == if |between| <= |before| then 0 else between[|between| - 1].attempt
  }

  lemma MirrorsNext(before: seq<StepAttempt>, between: seq<StepAttempt>, after: seq<StepAttempt>,
                    turns: seq<Turn>, turn: Turn, standing: Standing, number: nat, policy: WorkerPolicy)
    requires Mirrors(before, between, turns, policy) && |between| == |before| + |turns|
    requires LastRecorded(before, between, standing.lastAttempt)
    requires AppendsAtMost(between, after, LaunchOf(standing, turn.kind, number, policy))
    ensures Mirrors(before, after, turns + [turn], policy)
    ensures Appends(between, after, LaunchOf(standing, turn.kind, number, policy)) ==>
      |after| == |before| + |turns + [turn]| && LastRecorded(before, after, number)
  {
    assert forall k :: 0 <= k < |between| ==> after[k] == between[k];
    forall k | |before| <= k < |between|
      ensures Linked(before, after, k)
    {
      assert Linked(before, between, k);
    }
    if after != between {
      LinkedLast(before, between, after, standing, turn.kind, number, policy);
    }
    hide Linked;
  }

  lemma LinkedLast(before: seq<StepAttempt>, between: seq<StepAttempt>, after: seq<StepAttempt>, standing: Standing,
                   kind: AttemptKind, number: nat, policy: WorkerPolicy)
    requires |before| <= |between| && LastRecorded(before, between, standing.lastAttempt)
    requires Appends(between, after, LaunchOf(standing, kind, number, policy))
    ensures Linked(before, after, |between|)
  {
    assert between != [] ==> after[|between| - 1] == between[|between| - 1];
  }

  // ---------------------------------------------------------------- whom the passes call

  /** Calls since `before`, all of one worker. */
  predicate CallsBy(before: seq<Call>, after: seq<Call>, worker: string, atMost: nat) {
    && before <= after && |after| <= |before| + atMost
    && forall k :: |before| <= k < |after| ==> after[k].worker == worker
  }

  /** The calls fall into one group for each pass, in order, each to the worker of the pass. */
  ghost predicate Grouped(calls: seq<Call>, turns: seq<Turn>, policy: WorkerPolicy, atMost: nat)
    decreases |turns|
  {
    if turns == [] then
      calls == []
    else
      exists n :: 0 <= n <= |calls|
        && CallsBy(calls[..n], calls, WorkerFor(policy, turns[|turns| - 1].kind), atMost)
        && Grouped(calls[..n], turns[..|turns| - 1], policy, atMost)
  }

  /** The calls since `before` are those of the passes. */
  ghost predicate Calls(before: seq<Call>, after: seq<Call>, turns: seq<Turn>, policy: WorkerPolicy, atMost: nat) {
    before <= after && Grouped(after[|before|..], turns, policy, atMost)
  }

  lemma CallsNone(calls: seq<Call>, policy: WorkerPolicy, atMost: nat)
    ensures Calls(calls, calls, [], policy, atMost)
  {
  }

  lemma CallsNext(before: seq<Call>, between: seq<Call>, after: seq<Call>, turns: seq<Turn>, turn: Turn,
                  policy: WorkerPolicy, atMost: nat)
    requires Calls(before, between, turns, policy, atMost)
    requires CallsBy(between, after, WorkerFor(policy, turn.kind), atMost)
    ensures Calls(before, after, turns + [turn], policy, atMost)
  {
    var calls, all := after[|before|..], turns + [turn];
    var n := |between| - |before|;
    assert calls[..n] == between[|before|..] && all[..|turns|] == turns && all[|turns|] == turn;
    assert CallsBy(calls[..n], calls, WorkerFor(policy, all[|all| - 1].kind), atMost);
  }

  lemma {:induction false} GroupedBound(calls: seq<Call>, turns: seq<Turn>, policy: WorkerPolicy, atMost: nat)
    requires Grouped(calls, turns, policy, atMost)
    ensures |calls| <= |turns| * atMost
    decreases |turns|
  {
    if turns != [] {
      var n :| 0 <= n <= |calls|
        && CallsBy(calls[..n], calls, WorkerFor(policy, turns[|turns| - 1].kind), atMost)
        && Grouped(calls[..n], turns[..|turns| - 1], policy, atMost);
      GroupedBound(calls[..n], turns[..|turns| - 1], policy, atMost);
      assert |turns| * atMost == (|turns| - 1) * atMost + atMost;
    }
  }

  /** The failure that the pass in front of the `i`-th ended with, and how often it had come before. */
  function Before(turns: seq<Turn>, i: nat): (Option<string>, nat)
    requires i <= |turns|
  {
    if i == 0 || turns[i - 1].plan.None? then
      (None, 0)
    else
      (Some(turns[i - 1].plan.value.fingerprint), turns[i - 1].plan.value.repeated)
  }

  /** A failure is counted as a repetition exactly if it is the one before it once more, and if it was
      the coordinator's own review that found it. */
  predicate RepeatCounted(turn: Turn, last: Option<string>, lastCount: nat) {
    turn.plan.Some? ==>
      turn.plan.value.repeated == if turn.byModel then 0 else Repeats(turn.plan.value.fingerprint, last, lastCount)
  }

  ghost predicate RepeatsCounted(turns: seq<Turn>) {
    forall i :: 0 <= i < |turns| ==> RepeatCounted(turns[i], Before(turns, i).0, Before(turns, i).1)
  }

  /** The discipline of the loop, over all its passes. */
  ghost predicate Disciplined(turns: seq<Turn>) {
    && (forall i :: 0 <= i < |turns| - 1 ==> turns[i].plan.Some?)
    && (forall i :: 0 <= i < |turns| - 1 && WantsFallback(turns[i].plan.value) ==> turns[i + 1].kind == Fallback)
    && RepeatsCounted(turns)
  }

  /** At most one primary attempt, and no more of the others than the policy allows. */
  predicate WithinPolicy(turns: seq<Turn>, policy: WorkerPolicy) {
    && CountKind(turns, Primary) <= 1 && CountKind(turns, Primary) <= policy.primaryAttempts
    && CountKind(turns, Repair) <= policy.repairAttempts
    && CountKind(turns, Fallback) <= policy.fallbackAttempts
  }

  /** After these passes a fallback attempt is due: it is wanted, or the repairs are used up. */
  predicate FallbackDue(turns: seq<Turn>, policy: WorkerPolicy) {
    || CountKind(turns, Repair) == policy.repairAttempts
    || (turns != [] && turns[|turns| - 1].plan.Some? && WantsFallback(turns[|turns| - 1].plan.value))
  }

  /** The primary worker comes first, and a fallback before the repairs are used up only on demand. */
  ghost predicate InOrder(turns: seq<Turn>, policy: WorkerPolicy) {
    && (forall k :: 0 <= k < |turns| ==> (turns[k].kind == Primary <==> k == 0 && policy.primaryAttempts > 0))
    && (forall k :: 0 <= k < |turns| && turns[k].kind == Fallback ==> FallbackDue(turns[..k], policy))
    && (forall k :: 0 <= k < |turns| ==> turns[k].kind != VerificationRun)
  }

  /** No attempt of any kind is left. */
  predicate Exhausted(turns: seq<Turn>, policy: WorkerPolicy) {
    && CountKind(turns, Repair) == policy.repairAttempts
    && CountKind(turns, Fallback) == policy.fallbackAttempts
    && (turns == [] ==> policy.primaryAttempts == 0)
  }

  /** The last pass ended the step: it came to no plan, or its plan does not let the step go on. */
  predicate EndedByLast(turns: seq<Turn>) {
    && turns != []
    && var plan := turns[|turns| - 1].plan;
      plan.None? || Demoted(plan.value.verdict).disposition != RejectedRetryable
  }

  lemma CountAppend(turns: seq<Turn>, turn: Turn, kind: AttemptKind)
    ensures CountKind(turns + [turn], kind) == CountKind(turns, kind) + if turn.kind == kind then 1 else 0
  {
    assert (turns + [turn])[..|turns|] == turns;
  }

  /** The variables that the attempt loop carries from one pass to the next. */
  datatype Standing = Standing(
    budget: Budget, first: bool, lastAttempt: nat, preferFallback: bool,
    fingerprint: Option<string>, repeated: nat, blame: FailureClassification)

  function Opening(policy: WorkerPolicy): Standing {
    Standing(Budget(policy.primaryAttempts, policy.repairAttempts, policy.fallbackAttempts), true, 0, false, None, 0,
      InadequateImplementation)
  }

  /** How many more attempts the loop can make. */
  function Remaining(standing: Standing): nat {
    (if standing.first then standing.budget.primary else 0) + standing.budget.repair + standing.budget.fallback
  }

  function Pick(standing: Standing): Option<(AttemptKind, Budget)> {
    NextAttempt(standing.budget, standing.first, standing.preferFallback)
  }

  function NextStanding(standing: Standing, budget: Budget, number: nat, plan: Plan): Standing {
    Standing(budget, false, number, plan.preferFallback, Some(plan.fingerprint), plan.repeated,
      Classified(plan.verdict))
  }

  /** What the last pass failed with, and what a loop that had none is blamed for. */
  function LastFailure(turns: seq<Turn>): FailureClassification {
    if turns == [] || turns[|turns| - 1].plan.None? then
      InadequateImplementation
    else
      Classified(turns[|turns| - 1].plan.value.verdict)
  }

  predicate Spent(turns: seq<Turn>, standing: Standing, policy: WorkerPolicy) {
    && CountKind(turns, Primary) + standing.budget.primary == policy.primaryAttempts
    && CountKind(turns, Repair) + standing.budget.repair == policy.repairAttempts
    && CountKind(turns, Fallback) + standing.budget.fallback == policy.fallbackAttempts
    && |turns| == CountKind(turns, Primary) + CountKind(turns, Repair) + CountKind(turns, Fallback)
    && CountKind(turns, Primary) <= if standing.first then 0 else 1
  }

  /** What the loop's variables know about the passes so far. */
  ghost predicate Following(turns: seq<Turn>, standing: Standing, policy: WorkerPolicy) {
    && Disciplined(turns) && Spent(turns, standing, policy) && InOrder(turns, policy)
    && (standing.first <==> turns == [])
    && (standing.fingerprint, standing.repeated) == Before(turns, |turns|)
    && (turns != [] ==>
          var plan := turns[|turns| - 1].plan;
          && plan.Some?
          && (standing.preferFallback ==> WantsFallback(plan.value))
          && (WantsFallback(plan.value) ==> standing.preferFallback && standing.budget.fallback > 0))
    && (turns == [] ==> !standing.preferFallback)
    && standing.blame == LastFailure(turns)
  }

  lemma OpeningFollows(policy: WorkerPolicy)
    ensures Following([], Opening(policy), policy)
    ensures WithinPolicy([], policy)
  {
  }

  lemma TurnSpends(turns: seq<Turn>, standing: Standing, policy: WorkerPolicy, turn: Turn, budget: Budget,
                   next: Standing)
    requires Spent(turns, standing, policy) && Pick(standing) == Some((turn.kind, budget))
    requires next.budget == budget && !next.first
    ensures Spent(turns + [turn], next, policy)
    ensures WithinPolicy(turns + [turn], policy)
    ensures |turns| + 1 <= 1 + policy.repairAttempts + policy.fallbackAttempts
    ensures budget == Budget(0, 0, 0) ==> Exhausted(turns + [turn], policy)
  {
    CountAppend(turns, turn, Primary);
    CountAppend(turns, turn, Repair);
    CountAppend(turns, turn, Fallback);
    hide CountKind;
  }

  lemma TurnDisciplined(turns: seq<Turn>, standing: Standing, policy: WorkerPolicy, turn: Turn, budget: Budget)
    requires Following(turns, standing, policy) && Pick(standing) == Some((turn.kind, budget))
    requires RepeatCounted(turn, standing.fingerprint, standing.repeated)
    ensures Disciplined(turns + [turn])
  {
    hide WantsFallback, CountKind, Spent, RepeatCounted, InOrder, RepeatsCounted, Before;
    NextCounted(turns, turn);
  }

  lemma NextCounted(turns: seq<Turn>, turn: Turn)
    requires RepeatsCounted(turns) && RepeatCounted(turn, Before(turns, |turns|).0, Before(turns, |turns|).1)
    ensures RepeatsCounted(turns + [turn])
  {
    hide RepeatCounted;
    var all := turns + [turn];
    forall i | 0 <= i < |all|
      ensures RepeatCounted(all[i], Before(all, i).0, Before(all, i).1)
    {
      assert Before(all, i) == Before(turns, i);
      assert i < |turns| ==> all[i] == turns[i];
    }
  }

  lemma TurnInOrder(turns: seq<Turn>, standing: Standing, policy: WorkerPolicy, turn: Turn, budget: Budget)
    requires Following(turns, standing, policy) && Pick(standing) == Some((turn.kind, budget))
    ensures InOrder(turns + [turn], policy)
  {
    hide WantsFallback, Disciplined;
    assert turn.kind == Fallback ==> FallbackDue(turns, policy);
    assert turn.kind == Primary <==> turns == [] && policy.primaryAttempts > 0;
    hide FallbackDue, CountKind;
    var all := turns + [turn];
    assert all[..|turns|] == turns;
    assert forall k :: 0 <= k < |turns| ==> all[..k] == turns[..k] && all[k] == turns[k];
  }

  /** A fallback attempt is left if the plan wants one. */
  predicate MayGoOn(plan: Plan, budget: Budget) {
    && (WantsFallback(plan) ==> plan.preferFallback && budget.fallback > 0)
    && (plan.preferFallback ==> WantsFallback(plan))
  }

  /** What a judged attempt means for the pass that made it. */
  lemma JudgedMeans(input: ReviewInput, last: Option<string>, lastCount: nat, verdict: CoordinatorVerdict,
                    plan: Option<Plan>, kind: AttemptKind, budget: Budget)
    requires Judged(input, last, lastCount, budget.fallback, verdict, plan)
    ensures verdict.disposition == Accepted ==> ReviewAttempt(input).disposition == Accepted
    ensures RepeatCounted(Turn(kind, plan, ReviewAttempt(input).disposition == Accepted), last, lastCount)
    ensures plan.Some? ==> Demoted(plan.value.verdict) == verdict
    ensures verdict.disposition == RejectedRetryable ==> plan.Some? && MayGoOn(plan.value, budget)
    ensures verdict.disposition == RejectedRetryable ==> Classified(verdict).Retryable()
  {
    hide ReviewAttempt, WantsFallback;
  }

  /** One pass of the loop, whatever the attempt came to. */
  lemma TurnFollows(turns: seq<Turn>, standing: Standing, policy: WorkerPolicy, turn: Turn, budget: Budget, number: nat)
    requires Following(turns, standing, policy) && Pick(standing) == Some((turn.kind, budget))
    requires RepeatCounted(turn, standing.fingerprint, standing.repeated)
    ensures Disciplined(turns + [turn]) && WithinPolicy(turns + [turn], policy) && InOrder(turns + [turn], policy)
    ensures |turns + [turn]| <= 1 + policy.repairAttempts + policy.fallbackAttempts
    ensures budget == Budget(0, 0, 0) ==> Exhausted(turns + [turn], policy)
    ensures turn.plan.Some? && MayGoOn(turn.plan.value, budget) ==>
      Following(turns + [turn], NextStanding(standing, budget, number, turn.plan.value), policy)
  {
    hide WantsFallback, CountKind, Spent, Disciplined, WithinPolicy, Pick, InOrder, Exhausted;
    TurnDisciplined(turns, standing, policy, turn, budget);
    TurnInOrder(turns, standing, policy, turn, budget);
    TurnSpends(turns, standing, policy, turn, budget, Standing(budget, false, number, false, None, 0, NoChange));
    if turn.plan.Some? {
      TurnSpends(turns, standing, policy, turn, budget, NextStanding(standing, budget, number, turn.plan.value));
    }
  }

  lemma FollowingMeans(turns: seq<Turn>, standing: Standing, policy: WorkerPolicy)
    requires Following(turns, standing, policy)
    ensures Disciplined(turns) && WithinPolicy(turns, policy) && InOrder(turns, policy)
    ensures Pick(standing).None? || standing.budget == Budget(0, 0, 0) ==> Exhausted(turns, policy)
    ensures |turns| <= 1 + policy.repairAttempts + policy.fallbackAttempts
  {
    hide Disciplined, CountKind, WantsFallback;
  }

  /** All that holds of the passes of one step. */
  ghost predicate Regular(turns: seq<Turn>, policy: WorkerPolicy) {
    && Disciplined(turns) && WithinPolicy(turns, policy) && InOrder(turns, policy)
    && |turns| <= 1 + policy.repairAttempts + policy.fallbackAttempts
  }

  /** Between two passes: the loop's variables and the step's records both know all passes so far. */
  ghost predicate Tracked(turns: seq<Turn>, standing: Standing, policy: WorkerPolicy, before: seq<StepAttempt>,
                          attempts: seq<StepAttempt>)
  {
    && Following(turns, standing, policy)
    && Mirrors(before, attempts, turns, policy)
    && LastRecorded(before, attempts, standing.lastAttempt)
    && |attempts| == |before| + |turns|
  }

  lemma OpeningTracked(policy: WorkerPolicy, attempts: seq<StepAttempt>)
    ensures Tracked([], Opening(policy), policy, attempts, attempts)
  {
    OpeningFollows(policy);
    MirrorsNone(attempts, policy);
    hide Following;
  }

  lemma TrackedMeans(turns: seq<Turn>, standing: Standing, policy: WorkerPolicy, before: seq<StepAttempt>,
                     attempts: seq<StepAttempt>)
    requires Tracked(turns, standing, policy, before, attempts)
    ensures Regular(turns, policy) && Mirrors(before, attempts, turns, policy)
    ensures Pick(standing).None? ==> Exhausted(turns, policy)
    ensures standing.lastAttempt == 0 || (attempts != [] && standing.lastAttempt == attempts[|attempts| - 1].attempt)
    ensures |attempts| == |before| + |turns|
  {
    hide Following, Mirrors, Disciplined, WithinPolicy, InOrder, Pick, Exhausted;
    FollowingMeans(turns, standing, policy);
  }

  lemma PassTracked(turns: seq<Turn>, standing: Standing, policy: WorkerPolicy, before: seq<StepAttempt>,
                    between: seq<StepAttempt>, after: seq<StepAttempt>, turn: Turn, budget: Budget, number: nat)
    requires Tracked(turns, standing, policy, before, between) && Pick(standing) == Some((turn.kind, budget))
    requires RepeatCounted(turn, standing.fingerprint, standing.repeated)
    requires AppendsAtMost(between, after, LaunchOf(standing, turn.kind, number, policy))
    ensures Regular(turns + [turn], policy) && Mirrors(before, after, turns + [turn], policy)
    ensures budget == Budget(0, 0, 0) ==> Exhausted(turns + [turn], policy)
    ensures var all := turns + [turn];
      Appends(between, after, LaunchOf(standing, turn.kind, number, policy)) ==>
        && |after| == |before| + |all|
        && (turn.plan.Some? && MayGoOn(turn.plan.value, budget) ==>
              Tracked(all, NextStanding(standing, budget, number, turn.plan.value), policy, before, after))
  {
    hide Following, Mirrors, Disciplined, WithinPolicy, InOrder, Pick, Exhausted, MayGoOn, Appends, LaunchOf;
    MirrorsNext(before, between, after, turns, turn, standing, number, policy);
    TurnFollows(turns, standing, policy, turn, budget, number);
  }

  lemma PickSpends(standing: Standing)
    requires Pick(standing).Some?
    ensures forall number, plan ::
      Remaining(NextStanding(standing, Pick(standing).value.1, number, plan)) < Remaining(standing)
  {
  }

  /** Stuck twice on the same failure, a same-worker repair is never followed by a repair. */
  lemma RepeatedRepairChangesStrategy(turns: seq<Turn>, i: nat)
    requires Disciplined(turns) && i + 1 < |turns|
    requires turns[i].plan.Some? && turns[i].plan.value.repeated > 0
    requires turns[i].plan.value.decision == Some(Decision(RepairDecision, SameWorker))
    ensures turns[i + 1].kind == Fallback
    ensures i > 0 && turns[i - 1].plan.Some?
      && turns[i - 1].plan.value.fingerprint == turns[i].plan.value.fingerprint
  {
    assert WantsFallback(turns[i].plan.value);
  }
}
