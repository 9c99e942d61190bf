/**
 Step history: which records a run may have produced, how attempts are numbered, and how
 accepted steps sit in the campaign branch.
 */
module History {
  import opened Wrappers
  import opened Campaign

  // ---------------------------------------------------------------- the branch

  /** One commit of the campaign branch above the base. `clearedAt` is what the clock said at the
      checkpoint that let it through. */
  datatype Commit = Commit(sha: Sha, stepId: string, paths: seq<string>, clearedAt: nat)

  /** One call of the implementer. */
  datatype Call = Call(worker: string, clearedAt: nat)

  /** A commit together with the step that made it. */
  datatype Tag = Tag(sha: Sha, stepId: string)

  function TagOf(commit: Commit): Tag {
    Tag(commit.sha, commit.stepId)
  }

  function Tags(branch: seq<Commit>): (tags: seq<Tag>)
    ensures |tags| == |branch|
    ensures forall i :: 0 <= i < |branch| ==> tags[i] == TagOf(branch[i])
  {
    seq(|branch|, i requires 0 <= i < |branch| => TagOf(branch[i]))
  }

  function HeadOf(base: Sha, branch: seq<Commit>): Sha {
    if branch == [] then base else branch[|branch| - 1].sha
  }

  predicate FreshSha(base: Sha, branch: seq<Commit>, sha: Sha) {
    sha != base && forall i :: 0 <= i < |branch| ==> branch[i].sha != sha
  }

  /** `xs` is a subsequence of `ys`. */
  predicate Embeds(xs: seq<Tag>, ys: seq<Tag>)
    decreases |ys|
  {
    if xs == [] then
      true
    else if ys == [] then
      false
    else if xs[|xs| - 1] == ys[|ys| - 1] then
      Embeds(xs[..|xs| - 1], ys[..|ys| - 1])
    else
      Embeds(xs, ys[..|ys| - 1])
  }

  lemma {:induction false} EmbedsFront(xs: seq<Tag>, ys: seq<Tag>)
    requires xs != [] && Embeds(xs, ys)
    ensures Embeds(xs[..|xs| - 1], ys)
    decreases |ys|
  {
    var front, behind := xs[..|xs| - 1], ys[..|ys| - 1];
    if xs[|xs| - 1] == ys[|ys| - 1] {
      if front != [] && front[|front| - 1] == ys[|ys| - 1] {
        EmbedsFront(front, behind);
      }
    } else {
      EmbedsFront(xs, behind);
      if front != [] && front[|front| - 1] == ys[|ys| - 1] {
        EmbedsFront(front, behind);
      }
    }
  }

  lemma EmbedsGrow(xs: seq<Tag>, ys: seq<Tag>, y: Tag)
    requires Embeds(xs, ys)
    ensures Embeds(xs, ys + [y])
    ensures Embeds(xs + [y], ys + [y])
  {
    assert (ys + [y])[..|ys|] == ys;
    assert (xs + [y])[..|xs|] == xs;
    if xs != [] {
      EmbedsFront(xs, ys);
    }
  }

  lemma {:induction false} EmbedsLength(xs: seq<Tag>, ys: seq<Tag>)
    requires Embeds(xs, ys)
    ensures |xs| <= |ys|
    ensures |xs| == |ys| ==> xs == ys
    decreases |ys|
  {
    if xs != [] {
      if xs[|xs| - 1] == ys[|ys| - 1] {
        EmbedsLength(xs[..|xs| - 1], ys[..|ys| - 1]);
        assert xs == xs[..|xs| - 1] + [xs[|xs| - 1]];
        assert ys == ys[..|ys| - 1] + [ys[|ys| - 1]];
      } else {
        EmbedsLength(xs, ys[..|ys| - 1]);
      }
    }
  }

  // ---------------------------------------------------------------- step records

  predicate IsAccepted(step: StepStatus) {
    step.disposition == StepAccepted
  }

  predicate Pristine(step: StepStatus) {
    step.disposition == StepPending && step.attempts == [] && step.acceptedCommit == None && step.review == None
  }

  /** Nothing has happened to a step behind one that is not accepted. */
  predicate Ordered(steps: seq<StepStatus>) {
    forall i, j :: 0 <= i < j < |steps| ==> IsAccepted(steps[i]) || Pristine(steps[j])
  }

  /** Attempts recorded on the first `n` steps. */
  function AttemptsBefore(steps: seq<StepStatus>, n: nat): nat
    requires n <= |steps|
  {
    if n == 0 then 0 else AttemptsBefore(steps, n - 1) + |steps[n - 1].attempts|
  }

  function TotalAttempts(steps: seq<StepStatus>): nat {
    AttemptsBefore(steps, |steps|)
  }

  /** Attempts are numbered through the whole campaign. */
  predicate Numbered(steps: seq<StepStatus>) {
    forall i, a :: 0 <= i < |steps| && 0 <= a < |steps[i].attempts| ==>
      steps[i].attempts[a].attempt == AttemptsBefore(steps, i) + a + 1
  }

  /** An attempt's kind shows in what it continues and in the kind of its step. */
  predicate KindTied(kind: StepKind, attempt: StepAttempt) {
    match attempt.kind
    case Primary => kind == Implementation && attempt.repairOf == None && attempt.fallbackOf == None
    case Repair => kind == Implementation && attempt.repairOf.Some? && attempt.fallbackOf == None
    case Fallback => kind == Implementation && attempt.repairOf == None && attempt.fallbackOf.Some?
    case VerificationRun => kind == Verification && attempt.repairOf == None && attempt.fallbackOf == None
  }

  /** Which worker an attempt of this kind is for. */
  function WorkerFor(policy: WorkerPolicy, kind: AttemptKind): string {
    if kind == Fallback then policy.fallback else policy.primary
  }

  /** What an attempt continues is the attempt numbered before it; zero is for a loop that had none. */
  predicate Continued(attempt: StepAttempt, link: Option<nat>) {
    link.Some? ==> link.value == 0 || link.value + 1 == attempt.attempt
  }

  predicate Assigned(policy: WorkerPolicy, attempt: StepAttempt) {
    && attempt.worker == WorkerFor(policy, attempt.kind)
    && Continued(attempt, attempt.repairOf) && Continued(attempt, attempt.fallbackOf)
  }

  predicate AllAssigned(policy: WorkerPolicy, steps: seq<StepStatus>) {
    forall i, a :: 0 <= i < |steps| && 0 <= a < |steps[i].attempts| ==> Assigned(policy, steps[i].attempts[a])
  }

  /** What the attempts say of a step that is not accepted: an accepted attempt whose step was not
      accepted leaves it where it was. */
  function DispositionOf(attempts: seq<StepAttempt>): StepDisposition {
    if attempts == [] then
      StepPending
    else
      match attempts[|attempts| - 1].disposition
      case RejectedTerminal => StepBlocked
      case RejectedRetryable => StepRejected
      case Accepted => DispositionOf(attempts[..|attempts| - 1])
  }

  /** The review shown is that of the last attempt. */
  predicate Reviewed(step: StepStatus) {
    step.review == if step.attempts == [] then None else Some(step.attempts[|step.attempts| - 1].disposition)
  }

  /** The last attempt was accepted, with this commit. */
  predicate LastAccepted(step: StepStatus, commit: Option<Sha>) {
    && step.attempts != []
    && step.attempts[|step.attempts| - 1].disposition == Accepted
    && step.attempts[|step.attempts| - 1].commit == commit
  }

  /** A step is accepted by its last attempt; an implementation then owns that attempt's commit,
      and nothing else owns one. */
  predicate Sound(step: StepStatus) {
    && (forall a :: 0 <= a < |step.attempts| ==> KindTied(step.kind, step.attempts[a]))
    && Reviewed(step)
    && (!IsAccepted(step) ==> step.disposition == DispositionOf(step.attempts))
    && if IsAccepted(step) then
         && LastAccepted(step, step.acceptedCommit)
         && (step.acceptedCommit.Some? <==> step.kind == Implementation)
       else
         step.acceptedCommit == None
  }

  /** The commits accepted steps own, in step order. */
  function AcceptedTags(steps: seq<StepStatus>): seq<Tag> {
    if steps == [] then
      []
    else
      var last := steps[|steps| - 1];
      AcceptedTags(steps[..|steps| - 1]) +
      if last.acceptedCommit.Some? then [Tag(last.acceptedCommit.value, last.stepId)] else []
  }

  ghost predicate Lawful(limit: nat, steps: seq<StepStatus>, branch: seq<Commit>) {
    && Ordered(steps)
    && Numbered(steps)
    && (forall i :: 0 <= i < |steps| ==> Sound(steps[i]))
    && TotalAttempts(steps) <= limit
    && Embeds(AcceptedTags(steps), Tags(branch))
  }

  /** Step `i` is the one a run may work on: everything before it is accepted, it is not. */
  predicate Current(steps: seq<StepStatus>, i: nat) {
    i < |steps| && !IsAccepted(steps[i]) && forall j :: 0 <= j < i ==> IsAccepted(steps[j])
  }

  // ---------------------------------------------------------------- counting attempts

  lemma {:induction false} BeforeAgrees(xs: seq<StepStatus>, ys: seq<StepStatus>, n: nat)
    requires n <= |xs| && n <= |ys|
    requires forall i :: 0 <= i < n ==> xs[i].attempts == ys[i].attempts
    ensures AttemptsBefore(xs, n) == AttemptsBefore(ys, n)
  {
    if n > 0 {
      BeforeAgrees(xs, ys, n - 1);
    }
  }

  lemma {:induction false} BeforeConstant(steps: seq<StepStatus>, m: nat, n: nat)
    requires m <= n <= |steps|
    requires forall i :: m <= i < n ==> steps[i].attempts == []
    ensures AttemptsBefore(steps, n) == AttemptsBefore(steps, m)
  {
    if m < n {
      BeforeConstant(steps, m, n - 1);
    }
  }

  /** Every attempt so far lies on the current step or before it. */
  lemma TotalAtCurrent(steps: seq<StepStatus>, i: nat)
    requires Ordered(steps) && Current(steps, i)
    ensures TotalAttempts(steps) == AttemptsBefore(steps, i) + |steps[i].attempts|
  {
    BeforeConstant(steps, i + 1, |steps|);
  }

  /** The attempt numbers read off in step order. */
  function Numbers(steps: seq<StepStatus>, n: nat): seq<nat>
    requires n <= |steps|
  {
    if n == 0 then
      []
    else
      var attempts := steps[n - 1].attempts;
      Numbers(steps, n - 1) + seq(|attempts|, a requires 0 <= a < |attempts| => attempts[a].attempt)
  }

  /** Recorded attempts are numbered exactly 1, 2, .. N. */
  lemma {:induction false} NumberedOneToN(steps: seq<StepStatus>, n: nat)
    requires Numbered(steps) && n <= |steps|
    ensures |Numbers(steps, n)| == AttemptsBefore(steps, n)
    ensures forall k :: 0 <= k < |Numbers(steps, n)| ==> Numbers(steps, n)[k] == k + 1
  {
    if n > 0 {
      NumberedOneToN(steps, n - 1);
    }
  }

  // ---------------------------------------------------------------- appending an attempt

  function WithAttempt(steps: seq<StepStatus>, i: nat, attempt: StepAttempt,
                       disposition: StepDisposition): seq<StepStatus>
    requires i < |steps|
  {
    steps[i := steps[i].(attempts := steps[i].attempts + [attempt], disposition := disposition,
      review := Some(attempt.disposition))]
  }

  lemma {:induction false} TagsAgree(xs: seq<StepStatus>, ys: seq<StepStatus>)
    requires |xs| == |ys|
    requires forall i :: 0 <= i < |xs| ==> xs[i].acceptedCommit == ys[i].acceptedCommit && xs[i].stepId == ys[i].stepId
    ensures AcceptedTags(xs) == AcceptedTags(ys)
  {
    if xs != [] {
      TagsAgree(xs[..|xs| - 1], ys[..|ys| - 1]);
    }
  }

  lemma AttemptKeepsNumbers(steps: seq<StepStatus>, i: nat, attempt: StepAttempt, disposition: StepDisposition)
    requires Ordered(steps) && Numbered(steps) && Current(steps, i)
    requires attempt.attempt == TotalAttempts(steps) + 1
    requires disposition != StepAccepted
    ensures Numbered(WithAttempt(steps, i, attempt, disposition))
    ensures TotalAttempts(WithAttempt(steps, i, attempt, disposition)) == TotalAttempts(steps) + 1
    ensures Ordered(WithAttempt(steps, i, attempt, disposition))
    ensures Current(WithAttempt(steps, i, attempt, disposition), i)
  {
    var after := WithAttempt(steps, i, attempt, disposition);
    TotalAtCurrent(steps, i);
    assert Ordered(after);
    TotalAtCurrent(after, i);
    BeforeAgrees(steps, after, i);
    forall j, a | 0 <= j < |after| && 0 <= a < |after[j].attempts|
      ensures after[j].attempts[a].attempt == AttemptsBefore(after, j) + a + 1
    {
      if j < i {
        BeforeAgrees(steps, after, j);
      }
    }
  }

  lemma {:induction false} NeverAcceptedByAttempts(attempts: seq<StepAttempt>)
    ensures DispositionOf(attempts) != StepAccepted
  {
    if attempts != [] {
      NeverAcceptedByAttempts(attempts[..|attempts| - 1]);
    }
  }

  lemma AttemptKeepsHistory(limit: nat, steps: seq<StepStatus>, branch: seq<Commit>, i: nat,
                            attempt: StepAttempt, disposition: StepDisposition)
    requires Lawful(limit, steps, branch) && Current(steps, i)
    requires attempt.attempt == TotalAttempts(steps) + 1 <= limit
    requires KindTied(steps[i].kind, attempt) && disposition == DispositionOf(steps[i].attempts + [attempt])
    ensures Lawful(limit, WithAttempt(steps, i, attempt, disposition), branch)
    ensures Current(WithAttempt(steps, i, attempt, disposition), i)
    ensures AcceptedTags(WithAttempt(steps, i, attempt, disposition)) == AcceptedTags(steps)
  {
    var after := WithAttempt(steps, i, attempt, disposition);
    CurrentIsOpen(steps, i);
    SoundAfterAttempt(steps[i], attempt, disposition);
    hide Numbered, Embeds, AttemptsBefore, Ordered, Current, DispositionOf, KindTied, Sound, IsAccepted, TotalAttempts;
    AttemptKeepsNumbers(steps, i, attempt, disposition);
    TagsAgree(steps, after);
    assert forall j :: 0 <= j < |after| && j != i ==> after[j] == steps[j];
  }

  lemma SoundAfterAttempt(step: StepStatus, attempt: StepAttempt, disposition: StepDisposition)
    requires Sound(step) && !IsAccepted(step) && KindTied(step.kind, attempt)
    requires disposition == DispositionOf(step.attempts + [attempt])
    ensures disposition != StepAccepted
    ensures Sound(step.(attempts := step.attempts + [attempt], disposition := disposition,
              review := Some(attempt.disposition)))
  {
    NeverAcceptedByAttempts(step.attempts + [attempt]);
    hide DispositionOf, KindTied;
  }

  lemma AttemptKeepsAssigned(policy: WorkerPolicy, steps: seq<StepStatus>, i: nat, attempt: StepAttempt,
                             disposition: StepDisposition)
    requires AllAssigned(policy, steps) && Assigned(policy, attempt) && i < |steps|
    ensures AllAssigned(policy, WithAttempt(steps, i, attempt, disposition))
  {
    hide Assigned;
    var after := WithAttempt(steps, i, attempt, disposition);
    forall j, a | 0 <= j < |after| && 0 <= a < |after[j].attempts|
      ensures Assigned(policy, after[j].attempts[a])
    {
      if j == i && a < |steps[i].attempts| {
        assert after[i].attempts[a] == steps[i].attempts[a];
      }
    }
  }

  lemma AcceptKeepsAssigned(policy: WorkerPolicy, steps: seq<StepStatus>, i: nat, commit: Option<Sha>)
    requires AllAssigned(policy, steps) && i < |steps|
    ensures AllAssigned(policy, WithAccepted(steps, i, commit))
  {
    hide Assigned;
  }

  lemma AssignedConcat(policy: WorkerPolicy, xs: seq<StepStatus>, ys: seq<StepStatus>)
    requires AllAssigned(policy, xs) && AllAssigned(policy, ys)
    ensures AllAssigned(policy, xs + ys)
  {
    hide Assigned;
  }

  lemma CurrentIsOpen(steps: seq<StepStatus>, i: nat)
    requires Current(steps, i)
    ensures i < |steps| && !IsAccepted(steps[i])
  {
  }

  // ---------------------------------------------------------------- accepting a step

  function WithAccepted(steps: seq<StepStatus>, i: nat, commit: Option<Sha>): seq<StepStatus>
    requires i < |steps|
  {
    steps[i := steps[i].(disposition := StepAccepted, acceptedCommit := commit)]
  }

  lemma {:induction false} AcceptAddsTag(steps: seq<StepStatus>, i: nat, sha: Sha)
    requires i < |steps|
    requires forall j :: i <= j < |steps| ==> steps[j].acceptedCommit == None
    ensures AcceptedTags(WithAccepted(steps, i, Some(sha))) == AcceptedTags(steps) + [Tag(sha, steps[i].stepId)]
  {
    var n := |steps|;
    var after := WithAccepted(steps, i, Some(sha));
    if i == n - 1 {
      assert after[..n - 1] == steps[..n - 1];
      assert AcceptedTags(steps) == AcceptedTags(steps[..n - 1]);
    } else {
      AcceptAddsTag(steps[..n - 1], i, sha);
      assert after[..n - 1] == WithAccepted(steps[..n - 1], i, Some(sha));
      assert AcceptedTags(steps) == AcceptedTags(steps[..n - 1]);
    }
  }

  lemma AcceptKeepsShape(steps: seq<StepStatus>, i: nat, commit: Option<Sha>)
    requires Ordered(steps) && Numbered(steps) && Current(steps, i)
    ensures Ordered(WithAccepted(steps, i, commit)) && Numbered(WithAccepted(steps, i, commit))
    ensures TotalAttempts(WithAccepted(steps, i, commit)) == TotalAttempts(steps)
  {
    var after := WithAccepted(steps, i, commit);
    BeforeAgrees(steps, after, |steps|);
    forall j, a | 0 <= j < |after| && 0 <= a < |after[j].attempts|
      ensures after[j].attempts[a].attempt == AttemptsBefore(after, j) + a + 1
    {
      BeforeAgrees(steps, after, j);
      assert after[j].attempts == steps[j].attempts;
    }
  }

  lemma OpenFromCurrent(limit: nat, steps: seq<StepStatus>, branch: seq<Commit>, i: nat)
    requires Lawful(limit, steps, branch) && Current(steps, i)
    ensures forall j :: i <= j < |steps| ==> steps[j].acceptedCommit == None
  {
    forall j | i <= j < |steps|
      ensures steps[j].acceptedCommit == None
    {
      assert Sound(steps[j]);
      if j > i {
        assert Pristine(steps[j]);
      }
    }
  }

  /** A verification step owns no commit, so accepting it leaves the branch story alone. */
  lemma VerifiedKeepsHistory(limit: nat, steps: seq<StepStatus>, branch: seq<Commit>, i: nat)
    requires Lawful(limit, steps, branch) && Current(steps, i) && steps[i].kind == Verification
    requires LastAccepted(steps[i], None)
    ensures Lawful(limit, WithAccepted(steps, i, None), branch)
    ensures AcceptedTags(WithAccepted(steps, i, None)) == AcceptedTags(steps)
  {
    hide Numbered, Embeds, AttemptsBefore, Ordered;
    AcceptKeepsShape(steps, i, None);
    OpenFromCurrent(limit, steps, branch, i);
    TagsAgree(steps, WithAccepted(steps, i, None));
    assert Sound(steps[i]);
  }

  lemma LastTag(branch: seq<Commit>)
    requires branch != []
    ensures Tags(branch) == Tags(branch[..|branch| - 1]) + [TagOf(branch[|branch| - 1])]
  {
  }

  lemma AcceptKeepsSound(steps: seq<StepStatus>, i: nat, sha: Sha)
    requires i < |steps| && steps[i].kind == Implementation
    requires forall k :: 0 <= k < |steps| ==> Sound(steps[k])
    requires LastAccepted(steps[i], Some(sha))
    ensures forall k :: 0 <= k < |steps| ==> Sound(WithAccepted(steps, i, Some(sha))[k])
  {
    hide KindTied;
  }

  /** Accepting an implementation closes the window its commit opened. */
  lemma CommittedKeepsHistory(limit: nat, steps: seq<StepStatus>, branch: seq<Commit>, i: nat, sha: Sha)
    requires Lawful(limit, steps, branch) && Current(steps, i) && steps[i].kind == Implementation
    requires branch != [] && branch[|branch| - 1].sha == sha && branch[|branch| - 1].stepId == steps[i].stepId
    requires Embeds(AcceptedTags(steps), Tags(branch[..|branch| - 1]))
    requires LastAccepted(steps[i], Some(sha))
    ensures Lawful(limit, WithAccepted(steps, i, Some(sha)), branch)
    ensures AcceptedTags(WithAccepted(steps, i, Some(sha))) == AcceptedTags(steps) + [TagOf(branch[|branch| - 1])]
  {
    OpenFromCurrent(limit, steps, branch, i);
    AcceptKeepsSound(steps, i, sha);
    hide Numbered, Embeds, AttemptsBefore, Ordered, Sound;
    AcceptKeepsShape(steps, i, Some(sha));
    AcceptAddsTag(steps, i, sha);
    EmbedsGrow(AcceptedTags(steps), Tags(branch[..|branch| - 1]), TagOf(branch[|branch| - 1]));
    LastTag(branch);
  }

  // ---------------------------------------------------------------- appending records or commits

  lemma {:induction false} PristineAddsNoTag(steps: seq<StepStatus>, more: seq<StepStatus>)
    requires forall j :: 0 <= j < |more| ==> Pristine(more[j])
    ensures AcceptedTags(steps + more) == AcceptedTags(steps)
  {
    if more == [] {
      assert steps + more == steps;
    } else {
      var front := more[..|more| - 1];
      assert (steps + more)[..|steps + more| - 1] == steps + front;
      PristineAddsNoTag(steps, front);
      assert Pristine(more[|more| - 1]);
    }
  }

  lemma PristineKeepsNumbers(steps: seq<StepStatus>, more: seq<StepStatus>)
    requires Ordered(steps) && Numbered(steps)
    requires forall j :: 0 <= j < |more| ==> Pristine(more[j])
    ensures Ordered(steps + more) && Numbered(steps + more)
    ensures TotalAttempts(steps + more) == TotalAttempts(steps)
  {
    var all := steps + more;
    BeforeAgrees(steps, all, |steps|);
    forall i | |steps| <= i < |all|
      ensures all[i].attempts == []
    {
      assert Pristine(more[i - |steps|]);
    }
    BeforeConstant(all, |steps|, |all|);
    forall j, a | 0 <= j < |all| && 0 <= a < |all[j].attempts|
      ensures all[j].attempts[a].attempt == AttemptsBefore(all, j) + a + 1
    {
      assert j < |steps|;
      BeforeAgrees(steps, all, j);
    }
    forall i, j | 0 <= i < j < |all|
      ensures IsAccepted(all[i]) || Pristine(all[j])
    {
      if j >= |steps| {
        assert Pristine(more[j - |steps|]);
      }
    }
  }

  lemma PristineKeepsHistory(limit: nat, steps: seq<StepStatus>, more: seq<StepStatus>, branch: seq<Commit>)
    requires Lawful(limit, steps, branch)
    requires forall j :: 0 <= j < |more| ==> Pristine(more[j])
    ensures Lawful(limit, steps + more, branch)
    ensures AcceptedTags(steps + more) == AcceptedTags(steps)
  {
    hide Numbered, Embeds, AttemptsBefore, Ordered;
    PristineKeepsNumbers(steps, more);
    PristineAddsNoTag(steps, more);
    forall i | 0 <= i < |steps + more|
      ensures Sound((steps + more)[i])
    {
      if i >= |steps| {
        assert Pristine(more[i - |steps|]);
      }
    }
  }

  lemma CommitKeepsHistory(limit: nat, steps: seq<StepStatus>, branch: seq<Commit>, commit: Commit)
    requires Lawful(limit, steps, branch)
    ensures Lawful(limit, steps, branch + [commit])
  {
    hide Numbered, Embeds, AttemptsBefore, Ordered;
    EmbedsGrow(AcceptedTags(steps), Tags(branch), TagOf(commit));
    assert Tags(branch + [commit]) == Tags(branch) + [TagOf(commit)];
  }
}
