/**
 When a dirty worktree that an interrupted run left behind may be reset.
 */
module Reconcile {
  import opened Wrappers
  import opened Paths
  import opened PathAuthority
  import opened Campaign

  predicate InterruptibleAction(action: Action) {
    || action.ModelRequest? || action.RepairRequest? || action.FallbackRequest?
    || action.GitInspect? || action.AcceptanceCommand?
  }

  /** `find_step_index` */
  function FindIndex(steps: seq<StepStatus>, stepId: string): (index: Option<nat>)
    ensures index.Some? ==> index.value < |steps| && steps[index.value].stepId == stepId
    ensures index.Some? ==> forall k :: 0 <= k < index.value ==> steps[k].stepId != stepId
    ensures index.None? <==> !HasStep(steps, stepId)
  {
    if steps == [] then
      None
    else if steps[0].stepId == stepId then
      Some(0)
    else
      var behind := FindIndex(steps[1..], stepId);
      assert forall k :: 0 < k < |steps| ==> steps[k] == steps[1..][k - 1];
      if behind.Some? then Some(behind.value + 1) else None
  }

  function FindDocumentStep(steps: seq<CampaignStep>, stepId: string): (step: Option<CampaignStep>)
    ensures step.Some? ==> step.value in steps && step.value.id == stepId
    ensures step.None? <==> stepId !in DocumentIds(steps)
  {
    if steps == [] then
      None
    else if steps[0].id == stepId then
      assert DocumentIds(steps)[0] == stepId;
      Some(steps[0])
    else
      assert DocumentIds(steps) == [steps[0].id] + DocumentIds(steps[1..]);
      FindDocumentStep(steps[1..], stepId)
  }

  function AllAuthorized(dirty: seq<string>, permitted: seq<string>, allowed: seq<string>): Result<bool> {
    if dirty == [] then
      Ok(true)
    else
      var byCampaign :- PathIsAuthorized(dirty[0], permitted);
      if !byCampaign then Ok(false) else
      var byStep :- PathIsAuthorized(dirty[0], allowed);
      if !byStep then Ok(false) else AllAuthorized(dirty[1..], permitted, allowed)
  }

  /** The status shows an attempt that was started and never recorded. */
  predicate Interrupted(status: CampaignStatus) {
    && status.state == Running
    && InterruptibleAction(status.activity.action)
    && status.activity.stepId.Some?
    && var index := FindIndex(status.steps, status.activity.stepId.value);
      && index.Some?
      && status.steps[index.value].acceptedCommit.None?
      && status.activity.attempt > |status.steps[index.value].attempts|
  }

  /** `can_reset_interrupted_worktree`; only the steps of the campaign document are looked up. */
  function CanReset(campaign: CampaignDocument, status: CampaignStatus, insideRoot: bool,
                    dirty: seq<string>): Result<bool>
  {
    if !Interrupted(status) || !insideRoot then
      Ok(false)
    else
      match FindDocumentStep(campaign.steps, status.activity.stepId.value)
      case None => Err(false)
      case Some(step) => AllAuthorized(dirty, campaign.permittedPaths, step.allowedPaths)
  }

  /** The paths a reset throws away belong to the interrupted step of the campaign. */
  ghost predicate Discardable(campaign: CampaignDocument, status: CampaignStatus, dirty: seq<string>) {
    && status.state == Running
    && status.activity.stepId.Some?
    && exists step :: step in campaign.steps && step.id == status.activity.stepId.value &&
         forall p :: p in dirty ==> Authorized(p, campaign.permittedPaths) && Authorized(p, step.allowedPaths)
  }

  /** The interrupted step came with a revision. */
  predicate Revised(campaign: CampaignDocument, status: CampaignStatus) {
    status.activity.stepId.Some? && status.activity.stepId.value !in DocumentIds(campaign.steps)
  }

  /** What recovery does to the dirty source paths: all or nothing, only with authority, and
      nothing when a revision brought the step. */
  ghost predicate Discards(campaign: CampaignDocument, status: CampaignStatus, dirty: seq<string>,
                           discarded: seq<string>)
  {
    && (forall p :: p in dirty ==> !IsEphemeral(p))
    && (discarded == [] || discarded == dirty)
    && (discarded != [] ==> Discardable(campaign, status, discarded) && !Revised(campaign, status))
  }

  lemma {:induction false} AllAuthorizedMeans(dirty: seq<string>, permitted: seq<string>, allowed: seq<string>)
    requires AllAuthorized(dirty, permitted, allowed) == Ok(true)
    ensures forall p :: p in dirty ==> Authorized(p, permitted) && Authorized(p, allowed)
  {
    hide PathIsAuthorized, Authorized;
    if dirty != [] {
      AuthorizedFunction(dirty[0], permitted);
      AuthorizedFunction(dirty[0], allowed);
      AllAuthorizedMeans(dirty[1..], permitted, allowed);
    }
  }

  lemma AuthorizedFunction(path: string, allowlist: seq<string>)
    requires PathIsAuthorized(path, allowlist) == Ok(true)
    ensures Authorized(path, allowlist)
  {
    hide CampaignPath, AllowedPaths, Authorized;
    AnyAllowsIsAuthorized(path, allowlist);
  }

  lemma ResetIsAuthorized(campaign: CampaignDocument, status: CampaignStatus, insideRoot: bool, dirty: seq<string>)
    requires CanReset(campaign, status, insideRoot, dirty) == Ok(true)
    ensures Discardable(campaign, status, dirty)
    ensures HasStep(status.steps, status.activity.stepId.value)
  {
    hide AllAuthorized, Authorized;
    var step := FindDocumentStep(campaign.steps, status.activity.stepId.value).value;
    AllAuthorizedMeans(dirty, campaign.permittedPaths, step.allowedPaths);
  }

  /** A step that a revision appended is never reset: when it was interrupted, the lookup
      fails, and recovery with it. */
  lemma RevisedStepIsNeverReset(campaign: CampaignDocument, status: CampaignStatus, insideRoot: bool,
                                dirty: seq<string>)
    requires Revised(campaign, status)
    ensures CanReset(campaign, status, insideRoot, dirty) ==
      if Interrupted(status) && insideRoot then Err(false) else Ok(false)
  {
  }

  lemma NotRevised(campaign: CampaignDocument, status: CampaignStatus, insideRoot: bool, dirty: seq<string>)
    requires CanReset(campaign, status, insideRoot, dirty) == Ok(true)
    ensures !Revised(campaign, status)
  {
  }

  /** `path` parses, and the list parses and has an entry that it lies under. */
  ghost predicate AuthorizedBy(path: string, allowlist: seq<string>) {
    CampaignPath(path).Ok? && AllowedPaths(allowlist).Ok? && Authorized(path, allowlist)
  }

  lemma AuthorizedByMeans(path: string, allowlist: seq<string>)
    ensures PathIsAuthorized(path, allowlist) == Ok(true) <==> AuthorizedBy(path, allowlist)
  {
    if PathIsAuthorized(path, allowlist).Ok? {
      PathIsAuthorizedMeans(path, allowlist);
    }
    hide Authorized, CampaignPath, AllowedPaths, AnyAllows;
  }

  lemma {:induction false} AllAuthorizedIff(dirty: seq<string>, permitted: seq<string>, allowed: seq<string>)
    ensures AllAuthorized(dirty, permitted, allowed) == Ok(true) <==>
      forall p :: p in dirty ==> AuthorizedBy(p, permitted) && AuthorizedBy(p, allowed)
  {
    hide PathIsAuthorized, AuthorizedBy;
    if dirty != [] {
      AuthorizedByMeans(dirty[0], permitted);
      AuthorizedByMeans(dirty[0], allowed);
      AllAuthorizedIff(dirty[1..], permitted, allowed);
      assert dirty == [dirty[0]] + dirty[1..];
    }
  }

  /** A dirty worktree is reset exactly if it lies inside the workspace root, a running campaign was
      interrupted in the middle of an attempt that is not on record, and every dirty path is
      authorised by the campaign and by the document's step of that attempt. */
  lemma ResetIff(campaign: CampaignDocument, status: CampaignStatus, insideRoot: bool, dirty: seq<string>)
    ensures CanReset(campaign, status, insideRoot, dirty) == Ok(true) <==>
      && insideRoot && status.state == Running
      && (status.activity.action == ModelRequest || status.activity.action == RepairRequest
          || status.activity.action == FallbackRequest || status.activity.action == GitInspect
          || status.activity.action == AcceptanceCommand)
      && status.activity.stepId.Some? && HasStep(status.steps, status.activity.stepId.value)
      && (var record := status.steps[FindIndex(status.steps, status.activity.stepId.value).value];
          record.acceptedCommit == None && |record.attempts| < status.activity.attempt)
      && status.activity.stepId.value in DocumentIds(campaign.steps)
      && (var step := FindDocumentStep(campaign.steps, status.activity.stepId.value).value;
          forall p :: p in dirty ==>
            AuthorizedBy(p, campaign.permittedPaths) && AuthorizedBy(p, step.allowedPaths))
  {
    hide AllAuthorized, AuthorizedBy;
    if Interrupted(status) && status.activity.stepId.value in DocumentIds(campaign.steps) {
      var step := FindDocumentStep(campaign.steps, status.activity.stepId.value).value;
      AllAuthorizedIff(dirty, campaign.permittedPaths, step.allowedPaths);
    }
  }
}
