/**
 Status files from before attempts carried a kind, and their migration. A stored record is the
 JSON object with the fields that matter here; a missing field is `None`.
 */
module StateCompat {
  import opened Wrappers
  import opened Campaign
  import opened History
  import opened CampaignWorld

  datatype StoredAttempt = StoredAttempt(kind: Option<AttemptKind>, record: StepAttempt)

  datatype StoredStep = StoredStep(
    stepId: string, kind: Option<string>, attempts: seq<StoredAttempt>, record: StepStatus)

  // ---------------------------------------------------------------- reading a status

  function KindOfName(name: string): Option<StepKind> {
    if name == "implementation" then Some(Implementation)
    else if name == "verification" then Some(Verification)
    else None
  }

  function NameOfKind(kind: StepKind): string {
    if kind == Implementation then "implementation" else "verification"
  }

  /** Plain deserialisation fails on a missing kind. */
  function ReadAttempts(stored: seq<StoredAttempt>): Option<seq<StepAttempt>> {
    if stored == [] then
      Some([])
    else
      var rest := ReadAttempts(stored[1..]);
      if stored[0].kind.None? || rest.None? then
        None
      else
        Some([stored[0].record.(kind := stored[0].kind.value)] + rest.value)
  }

  function ReadStep(stored: StoredStep): Option<StepStatus> {
    var attempts := ReadAttempts(stored.attempts);
    if stored.kind.None? || KindOfName(stored.kind.value).None? || attempts.None? then
      None
    else
      var kind := KindOfName(stored.kind.value).value;
      Some(stored.record.(stepId := stored.stepId, kind := kind, attempts := attempts.value))
  }

  function ReadSteps(stored: seq<StoredStep>): Option<seq<StepStatus>> {
    if stored == [] then
      Some([])
    else
      var first, rest := ReadStep(stored[0]), ReadSteps(stored[1..]);
      if first.None? || rest.None? then None else Some([first.value] + rest.value)
  }

  // ---------------------------------------------------------------- inferring kinds

  /** `infer_attempt_kind`: the linkage first, then the kind of the step. */
  function Infer(stepKind: Option<string>, attempt: StepAttempt): Option<AttemptKind> {
    if attempt.fallbackOf.Some? then Some(Fallback)
    else if attempt.repairOf.Some? then Some(Repair)
    else if stepKind == Some("verification") then Some(VerificationRun)
    else if stepKind == Some("implementation") then Some(Primary)
    else None
  }

  /** The link decides, a fallback's before a repair's; without one the kind of the step does, and only an
      attempt that has neither cannot be told. */
  lemma InferredIff(stepKind: Option<string>, attempt: StepAttempt)
    ensures Infer(stepKind, attempt) == Some(Fallback) <==> attempt.fallbackOf.Some?
    ensures Infer(stepKind, attempt) == Some(Repair) <==> attempt.fallbackOf.None? && attempt.repairOf.Some?
    ensures Infer(stepKind, attempt) == None <==>
      && attempt.fallbackOf.None? && attempt.repairOf.None?
      && (stepKind.None? || KindOfName(stepKind.value).None?)
  {
  }

  /** The step's own kind, else that of the campaign document's step with its id. */
  function StepKindFor(step: StoredStep, campaignKinds: map<string, string>): Option<string> {
    if step.kind.Some? then step.kind
    else if step.stepId in campaignKinds then Some(campaignKinds[step.stepId])
    else None
  }

  predicate Inferable(stepKind: Option<string>, attempt: StoredAttempt) {
    attempt.kind.Some? || Infer(stepKind, attempt.record).Some?
  }

  predicate Migratable(step: StoredStep, campaignKinds: map<string, string>) {
    forall a :: 0 <= a < |step.attempts| ==> Inferable(StepKindFor(step, campaignKinds), step.attempts[a])
  }

  function Filled(stepKind: Option<string>, attempt: StoredAttempt): StoredAttempt {
    if attempt.kind.Some? then attempt else attempt.(kind := Infer(stepKind, attempt.record))
  }

  function FilledAttempts(stepKind: Option<string>, attempts: seq<StoredAttempt>): (filled: seq<StoredAttempt>)
    ensures |filled| == |attempts|
    ensures forall a :: 0 <= a < |attempts| ==> filled[a] == Filled(stepKind, attempts[a])
  {
    seq(|attempts|, a requires 0 <= a < |attempts| => Filled(stepKind, attempts[a]))
  }

  function Migrated(step: StoredStep, campaignKinds: map<string, string>): StoredStep {
    step.(attempts := FilledAttempts(StepKindFor(step, campaignKinds), step.attempts))
  }

  /** `migrate_missing_attempt_kinds`, in place. */
  method MigrateMissingKinds(steps: array<StoredStep>, campaignKinds: map<string, string>) returns (r: Result<()>)
    modifies steps
    ensures r.Ok? <==> forall i :: 0 <= i < steps.Length ==> Migratable(old(steps[i]), campaignKinds)
    ensures r.Ok? ==> steps[..] == MigratedSteps(old(steps[..]), campaignKinds)
  {
    for i := 0 to steps.Length
      invariant forall k :: 0 <= k < i ==> Migratable(old(steps[k]), campaignKinds)
      invariant forall k :: 0 <= k < i ==> steps[k] == Migrated(old(steps[k]), campaignKinds)
      invariant forall k :: i <= k < steps.Length ==> steps[k] == old(steps[k])
    {
      var step := steps[i];
      var filled := FillAttempts(StepKindFor(step, campaignKinds), step.attempts);
      if filled.Err? {
        assert !Migratable(old(steps[i]), campaignKinds);
        return Err(false);
      }
      steps[i] := step.(attempts := filled.value);
      assert steps[i].attempts == Migrated(step, campaignKinds).attempts;
    }
    return Ok(());
  }

  method FillAttempts(stepKind: Option<string>, attempts: seq<StoredAttempt>) returns (r: Result<seq<StoredAttempt>>)
    ensures r.Ok? <==> forall a :: 0 <= a < |attempts| ==> Inferable(stepKind, attempts[a])
    ensures r.Ok? ==> r.value == FilledAttempts(stepKind, attempts)
  {
    var filled := [];
    for a := 0 to |attempts|
      invariant forall k :: 0 <= k < a ==> Inferable(stepKind, attempts[k])
      invariant |filled| == a && forall k :: 0 <= k < a ==> filled[k] == Filled(stepKind, attempts[k])
    {
      var attempt := attempts[a];
      if attempt.kind.None? {
        var inferred := Infer(stepKind, attempt.record);
        if inferred.None? {
          return Err(false);
        }
        attempt := attempt.(kind := inferred);
      }
      filled := filled + [attempt];
    }
    return Ok(filled);
  }

  function MigratedSteps(stored: seq<StoredStep>, campaignKinds: map<string, string>): (migrated: seq<StoredStep>)
    ensures |migrated| == |stored|
    ensures forall i :: 0 <= i < |stored| ==> migrated[i] == Migrated(stored[i], campaignKinds)
  {
    seq(|stored|, i requires 0 <= i < |stored| => Migrated(stored[i], campaignKinds))
  }

  /** `deserialize_campaign_status_compatible`: migration only when the plain reading fails. */
  function Deserialize(stored: seq<StoredStep>, campaignKinds: map<string, string>): Option<seq<StepStatus>> {
    var plain := ReadSteps(stored);
    if plain.Some? then
      plain
    else if forall i :: 0 <= i < |stored| ==> Migratable(stored[i], campaignKinds) then
      ReadSteps(MigratedSteps(stored, campaignKinds))
    else
      None
  }

  // ---------------------------------------------------------------- writing, and forgetting kinds

  /** `stored` is `attempt` as written, with or without its kind. */
  predicate Stores(stored: StoredAttempt, attempt: StepAttempt) {
    stored.record == attempt && (stored.kind == None || stored.kind == Some(attempt.kind))
  }

  predicate StoresStep(stored: StoredStep, step: StepStatus) {
    && stored.stepId == step.stepId
    && stored.kind == Some(NameOfKind(step.kind))
    && stored.record == step
    && |stored.attempts| == |step.attempts|
    && forall a :: 0 <= a < |step.attempts| ==> Stores(stored.attempts[a], step.attempts[a])
  }

  /** A file that stores these records with any of the kinds erased. */
  predicate StoresSteps(stored: seq<StoredStep>, steps: seq<StepStatus>) {
    |stored| == |steps| && forall i :: 0 <= i < |steps| ==> StoresStep(stored[i], steps[i])
  }

  /** A kind that its linkage and its step give away. */
  predicate Evident(kind: StepKind, attempt: StepAttempt) {
    Infer(Some(NameOfKind(kind)), attempt) == Some(attempt.kind)
  }

  /** Whatever the attempt loop and the verification run record is evident. */
  lemma TiedIsEvident(kind: StepKind, attempt: StepAttempt)
    requires KindTied(kind, attempt)
    ensures Evident(kind, attempt)
  {
  }

  // ---------------------------------------------------------------- migration restores the status

  predicate Filling(stored: seq<StoredAttempt>, attempts: seq<StepAttempt>) {
    |stored| == |attempts| && forall a :: 0 <= a < |attempts| ==> stored[a].record == attempts[a]
  }

  /** Records read back unchanged exactly when every kind reads back unchanged. */
  lemma {:induction false} ReadBack(stored: seq<StoredAttempt>, attempts: seq<StepAttempt>)
    requires Filling(stored, attempts)
    ensures ReadAttempts(stored) == Some(attempts) <==>
      forall a :: 0 <= a < |attempts| ==> stored[a].kind == Some(attempts[a].kind)
  {
    if stored != [] {
      ReadBack(stored[1..], attempts[1..]);
      var rest := ReadAttempts(stored[1..]);
      assert attempts == [attempts[0]] + attempts[1..];
      if ReadAttempts(stored) == Some(attempts) {
        var first := stored[0].record.(kind := stored[0].kind.value);
        assert attempts == [first] + rest.value;
        assert attempts[0] == first && attempts[1..] == rest.value;
      }
    }
  }

  /** A step is restored exactly when each of its erased kinds is evident. */
  lemma OnlyEvidentKindsReturn(stored: StoredStep, step: StepStatus, campaignKinds: map<string, string>)
    requires StoresStep(stored, step)
    ensures Migratable(stored, campaignKinds) && ReadStep(Migrated(stored, campaignKinds)) == Some(step) <==>
      forall a :: 0 <= a < |step.attempts| ==> stored.attempts[a].kind.Some? || Evident(step.kind, step.attempts[a])
  {
    ReadBack(Migrated(stored, campaignKinds).attempts, step.attempts);
    if Migratable(stored, campaignKinds) && ReadStep(Migrated(stored, campaignKinds)) == Some(step) {
      forall a | 0 <= a < |step.attempts|
        ensures stored.attempts[a].kind.Some? || Evident(step.kind, step.attempts[a])
      {
        assert Migrated(stored, campaignKinds).attempts[a].kind == Some(step.attempts[a].kind);
      }
    }
  }

  lemma {:induction false} StepsReadBack(stored: seq<StoredStep>, steps: seq<StepStatus>)
    requires |stored| == |steps|
    requires forall i :: 0 <= i < |steps| ==> ReadStep(stored[i]) == Some(steps[i])
    ensures ReadSteps(stored) == Some(steps)
  {
    if stored != [] {
      StepsReadBack(stored[1..], steps[1..]);
      assert steps == [steps[0]] + steps[1..];
    }
  }

  /** A plain reading that succeeds has lost nothing. */
  lemma {:induction false} PlainReadBack(stored: seq<StoredStep>, steps: seq<StepStatus>)
    requires StoresSteps(stored, steps) && ReadSteps(stored).Some?
    ensures ReadSteps(stored) == Some(steps)
  {
    if stored != [] {
      PlainReadBack(stored[1..], steps[1..]);
      KindsPresent(stored[0].attempts);
      ReadBack(stored[0].attempts, steps[0].attempts);
      assert steps == [steps[0]] + steps[1..];
    }
  }

  lemma {:induction false} KindsPresent(stored: seq<StoredAttempt>)
    requires ReadAttempts(stored).Some?
    ensures forall a :: 0 <= a < |stored| ==> stored[a].kind.Some?
  {
    if stored != [] {
      KindsPresent(stored[1..]);
      assert forall a :: 0 < a < |stored| ==> stored[a] == stored[1..][a - 1];
    }
  }

  predicate AllEvident(steps: seq<StepStatus>) {
    forall i, a :: 0 <= i < |steps| && 0 <= a < |steps[i].attempts| ==> Evident(steps[i].kind, steps[i].attempts[a])
  }

  /** Whichever kinds a file has lost, migration restores the identical records. */
  lemma MigrationRestores(stored: seq<StoredStep>, steps: seq<StepStatus>, campaignKinds: map<string, string>)
    requires StoresSteps(stored, steps) && AllEvident(steps)
    ensures Deserialize(stored, campaignKinds) == Some(steps)
  {
    hide Evident, ReadStep, Migratable;
    if ReadSteps(stored).Some? {
      PlainReadBack(stored, steps);
    } else {
      forall i | 0 <= i < |steps|
        ensures Migratable(stored[i], campaignKinds)
        ensures ReadStep(MigratedSteps(stored, campaignKinds)[i]) == Some(steps[i])
      {
        OnlyEvidentKindsReturn(stored[i], steps[i], campaignKinds);
      }
      StepsReadBack(MigratedSteps(stored, campaignKinds), steps);
    }
  }

  /** Every status of a campaign survives the loss of its attempt kinds. */
  lemma CampaignStatusSurvives(campaign: CampaignDocument, w: World, stored: seq<StoredStep>,
                               campaignKinds: map<string, string>)
    requires StatusInv(campaign, w) && StoresSteps(stored, w.disk.steps)
    ensures Deserialize(stored, campaignKinds) == Some(w.disk.steps)
  {
    var steps := w.disk.steps;
    assert forall i :: 0 <= i < |steps| ==> Sound(steps[i]);
    hide StatusInv, Deserialize, StoresSteps;
    forall i, a | 0 <= i < |steps| && 0 <= a < |steps[i].attempts|
      ensures Evident(steps[i].kind, steps[i].attempts[a])
    {
      assert Sound(steps[i]);
      TiedIsEvident(steps[i].kind, steps[i].attempts[a]);
    }
    MigrationRestores(stored, steps, campaignKinds);
  }
}
