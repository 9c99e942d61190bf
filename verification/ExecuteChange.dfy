/**
 The one-shot change pipeline: inspect, implement, inspect, check, inspect, materialise. What git,
 the implementer and the executor answer is arbitrary, and the results hold for all answers.
 */
module ExecuteChange {
  import opened Wrappers
  import opened Paths

  datatype Mode = PrepareOnly | ChecksOnly | ImplementAndVerify {
    predicate RunsImplementer() { ImplementAndVerify? }
    predicate RunsChecks() { ChecksOnly? || ImplementAndVerify? }
  }

  datatype Status = Prepared | ChecksPassed | ChecksFailed | PathPolicyFailed | ExecutorUnavailable | Failed {
    predicate IsSuccessful() { Prepared? || ChecksPassed? }
  }

  datatype Verdict = Approved | Rejected

  datatype CommandEvidence = CommandEvidence(argv: seq<string>, succeeded: bool)

  datatype Request = Request(
    mode: Mode, allowed: seq<string>, commands: seq<seq<string>>, artifacts: seq<string>,
    hasExecutor: bool, hasImplementer: bool)

  datatype Packet = Packet(
    status: Status, verdict: Option<Verdict>, lastError: Option<string>,
    changedPaths: seq<string>, headSha: nat, commands: seq<CommandEvidence>)

  /** A commit that `commit_local` made. */
  datatype Revision = Revision(paths: seq<string>, sha: nat)

  // ---------------------------------------------------------------- what the other systems answer

  datatype Inspection = Inspection(changedPaths: seq<string>, headSha: nat)

  /** The implementer fails, reports an error of its own, or does its work. */
  datatype ImplementerAnswer = Broken | Complains | Works

  datatype CommandAnswer = Malformed | Unanswered(gone: bool) | Ran(succeeded: bool)

  /** How `commit_local` ends: it may have made the commit and then fail to read its id. */
  datatype CommitFate = Made | NotMade | MadeUnread

  /** Inspections 0, 1 and 2 are those before, behind the implementer and at the end; attestations 0
      and 1 those before the checks and before the commit. */
  datatype Answers = Answers(
    inspections: nat -> Option<Inspection>, implementer: ImplementerAnswer, attests: nat -> bool,
    commands: nat -> CommandAnswer, readable: nat -> bool, commit: CommitFate, sha: nat, message: string)

  // ---------------------------------------------------------------- what has to go well

  ghost predicate Allowed(request: Request, inspection: Option<Inspection>) {
    inspection.Some? && forall p :: p in SourcePaths(inspection.value.changedPaths) ==> AnyAllows(request.allowed, p)
  }

  ghost predicate Implemented(request: Request, answers: Answers) {
    request.mode.RunsImplementer() ==>
      request.hasImplementer && answers.implementer == Works && Allowed(request, answers.inspections(1))
  }

  predicate Attested(request: Request, answers: Answers, k: nat) {
    request.hasImplementer ==> answers.attests(k)
  }

  predicate CommandsPass(request: Request, answers: Answers) {
    request.hasExecutor && forall k :: 0 <= k < |request.commands| ==> answers.commands(k) == Ran(true)
  }

  predicate ArtifactsRead(request: Request, answers: Answers, n: nat) {
    n <= |request.artifacts| &&
    forall k :: 0 <= k < n ==> WorkspacePath(request.artifacts[k]).Ok? && answers.readable(k)
  }

  /** Everything in front of the checks has gone well. */
  ghost predicate Ready(request: Request, answers: Answers) {
    && Allowed(request, answers.inspections(0))
    && Implemented(request, answers)
    && Attested(request, answers, 0)
  }

  ghost predicate ChecksPass(request: Request, answers: Answers) {
    CommandsPass(request, answers) && ArtifactsRead(request, answers, |request.artifacts|)
  }

  /** Everything behind the checks, too. */
  ghost predicate Finished(request: Request, answers: Answers) {
    && Allowed(request, answers.inspections(2))
    && Attested(request, answers, 1)
    && (SourcePaths(answers.inspections(2).value.changedPaths) == [] || answers.commit == Made)
  }

  // ---------------------------------------------------------------- packets

  function Prepare(): Packet {
    Packet(Prepared, None, None, [], 0, [])
  }

  function Fail(packet: Packet, status: Status, error: string): Packet {
    packet.(status := status, verdict := Some(Rejected), lastError := Some(error))
  }

  /** The final paths that the request does not allow. */
  function Disallowed(request: Request, packet: Packet): seq<string> {
    RejectDisallowed(request.allowed, SourcePaths(packet.changedPaths))
  }

  /** The first `n` commands ran, in order, with these results. */
  predicate AllRan(request: Request, answers: Answers, commands: seq<CommandEvidence>, n: nat) {
    && |commands| == n <= |request.commands|
    && forall k :: 0 <= k < n ==>
         answers.commands(k).Ran? && commands[k] == CommandEvidence(request.commands[k], answers.commands(k).succeeded)
  }

  predicate AllSucceeded(commands: seq<CommandEvidence>) {
    forall k :: 0 <= k < |commands| ==> commands[k].succeeded
  }

  /** A packet is rejected exactly when its status is not successful, and then says why. */
  predicate Consistent(packet: Packet) {
    && (packet.verdict == Some(Rejected) <==> !packet.status.IsSuccessful())
    && (packet.verdict == Some(Rejected) ==> packet.lastError.Some?)
  }

  /** A packet that nothing has been decided about. */
  predicate Open(packet: Packet) {
    packet.status == Prepared && packet.verdict == None && packet.commands == []
  }

  predicate Shows(packet: Packet, inspection: Option<Inspection>) {
    && inspection.Some?
    && packet.changedPaths == inspection.value.changedPaths && packet.headSha == inspection.value.headSha
  }

  // ---------------------------------------------------------------- the stages

  /** `inspect_into` and `reject_disallowed`: the packet goes on exactly with an answer that shows
      allowed paths only. */
  method InspectAllowed(request: Request, answers: Answers, k: nat, packet: Packet)
    returns (next: Packet, goesOn: bool)
    ensures goesOn <==> Allowed(request, answers.inspections(k))
    ensures goesOn ==> next == packet.(changedPaths := next.changedPaths, headSha := next.headSha)
    ensures goesOn ==> Shows(next, answers.inspections(k)) && Disallowed(request, next) == []
    ensures !goesOn ==> Consistent(next)
    ensures !goesOn ==> next.status == if answers.inspections(k).None? then Failed else PathPolicyFailed
    ensures next.commands == packet.commands
  {
    if answers.inspections(k).None? {
      return Fail(packet, Failed, answers.message), false;
    }
    var inspection := answers.inspections(k).value;
    next := packet.(changedPaths := inspection.changedPaths, headSha := inspection.headSha);
    var rejected := Disallowed(request, next);
    if rejected != [] {
      assert rejected[0] in rejected;
      return Fail(next, PathPolicyFailed, answers.message), false;
    }
    assert forall p :: p in SourcePaths(next.changedPaths) ==> p !in rejected;
    return next, true;
  }

  /** `implement`; an error of the implementer itself fails the packet like one it reports. */
  method Implement(request: Request, answers: Answers, packet: Packet)
    returns (next: Packet, ghost calls: nat, broken: bool)
    requires Open(packet)
    ensures next == packet <==> request.hasImplementer && answers.implementer == Works
    ensures next != packet ==> Consistent(next) && next.commands == []
    ensures next != packet ==> next.status == if request.hasImplementer then Failed else ExecutorUnavailable
    ensures broken <==> request.hasImplementer && answers.implementer == Broken
    ensures calls == if request.hasImplementer then 1 else 0
  {
    if !request.hasImplementer {
      return Fail(packet, ExecutorUnavailable, answers.message), 0, false;
    }
    match answers.implementer {
      case Broken => return Fail(packet, Failed, answers.message), 1, true;
      case Complains => return Fail(packet, Failed, answers.message), 1, false;
      case Works => return packet, 1, false;
    }
  }

  /** `run_checks`: every command runs, in order, before any result is looked at; only an executor
      that gives no result stops the sequence. */
  method RunChecks(request: Request, answers: Answers, packet: Packet) returns (next: Packet)
    requires Open(packet)
    ensures next.status == ChecksPassed <==> ChecksPass(request, answers)
    ensures next.status == ChecksPassed ==>
      next == packet.(status := ChecksPassed, commands := next.commands) && AllSucceeded(next.commands)
    ensures next.status != ChecksPassed ==> Consistent(next) && next.status != Prepared
    ensures AllRan(request, answers, next.commands, |next.commands|)
    ensures next.status == ChecksPassed || next.status == ChecksFailed ==> |next.commands| == |request.commands|
    ensures next.status == ExecutorUnavailable <==>
      !request.hasExecutor || (exists n :: StoppedAt(request, answers, n) && answers.commands(n) == Unanswered(true))
  {
    if !request.hasExecutor {
      return Fail(packet, ExecutorUnavailable, answers.message);
    }
    var commands: seq<CommandEvidence> := [];
    for n := 0 to |request.commands|
      invariant AllRan(request, answers, commands, n)
    {
      match answers.commands(n) {
        case Malformed =>
          assert StoppedAt(request, answers, n);
          return Fail(packet, Failed, answers.message);
        case Unanswered(gone) =>
          assert StoppedAt(request, answers, n);
          return Fail(packet.(commands := commands), if gone then ExecutorUnavailable else Failed, answers.message);
        case Ran(succeeded) =>
          commands := commands + [CommandEvidence(request.commands[n], succeeded)];
      }
    }
    var ran := packet.(commands := commands);
    if !AllSucceeded(commands) {
      return Fail(ran, ChecksFailed, answers.message);
    }
    assert forall k :: 0 <= k < |commands| ==> commands[k].succeeded;
    var present := AssertArtifacts(request, answers);
    if !present {
      return Fail(ran, ChecksFailed, answers.message);
    }
    return ran.(status := ChecksPassed);
  }

  /** The commands in front of the `n`-th ran, and it did not. */
  predicate StoppedAt(request: Request, answers: Answers, n: nat) {
    && n < |request.commands|
    && !answers.commands(n).Ran?
    && forall k :: 0 <= k < n ==> answers.commands(k).Ran?
  }

  /** Reads the artifacts in order and stops at the first that does not parse or is not there. */
  method AssertArtifacts(request: Request, answers: Answers) returns (present: bool)
    ensures present <==> ArtifactsRead(request, answers, |request.artifacts|)
  {
    hide WorkspacePath;
    for n := 0 to |request.artifacts|
      invariant ArtifactsRead(request, answers, n)
    {
      if WorkspacePath(request.artifacts[n]).Err? || !answers.readable(n) {
        return false;
      }
    }
    return true;
  }

  /** `materialize_accepted_revision` and the approval: commits what is left to commit. */
  method Materialise(answers: Answers, packet: Packet) returns (next: Packet, ghost revisions: seq<Revision>)
    requires packet.status == ChecksPassed && packet.verdict == None
    ensures next.changedPaths == packet.changedPaths && next.commands == packet.commands
    ensures next.verdict == Some(Approved) <==> SourcePaths(packet.changedPaths) == [] || answers.commit == Made
    ensures next.verdict == Some(Approved) ==> next.status == ChecksPassed
    ensures next.verdict == Some(Approved) ==>
      next.headSha == if SourcePaths(packet.changedPaths) == [] then packet.headSha else answers.sha
    ensures next.verdict != Some(Approved) ==> next.status == Failed && Consistent(next)
    ensures revisions ==
      if SourcePaths(packet.changedPaths) == [] || answers.commit == NotMade then []
      else [Revision(SourcePaths(packet.changedPaths), answers.sha)]
  {
    var changed := SourcePaths(packet.changedPaths);
    if changed == [] {
      return packet.(verdict := Some(Approved)), [];
    }
    match answers.commit {
      case NotMade =>
        return Fail(packet, Failed, answers.message), [];
      case MadeUnread =>
        return Fail(packet, Failed, answers.message), [Revision(changed, answers.sha)];
      case Made =>
        return packet.(headSha := answers.sha, verdict := Some(Approved)), [Revision(changed, answers.sha)];
    }
  }

  // ---------------------------------------------------------------- the pipeline

  /** What an operator can conclude from the packet, but for a commit whose id went unread. */
  ghost predicate Conclusive(request: Request, answers: Answers, packet: Packet, revisions: seq<Revision>) {
    && Consistent(packet)
    && (packet.verdict == Some(Approved) <==> packet.status == ChecksPassed)
    && AllRan(request, answers, packet.commands, |packet.commands|)
    && (packet.verdict == Some(Approved) ==>
          && |packet.commands| == |request.commands| && AllSucceeded(packet.commands)
          && (forall p :: p in SourcePaths(packet.changedPaths) ==> AnyAllows(request.allowed, p))
          && revisions ==
             if SourcePaths(packet.changedPaths) == [] then []
             else [Revision(SourcePaths(packet.changedPaths), packet.headSha)])
    && (packet.verdict != Some(Approved) && revisions != [] ==>
          packet.status == Failed && answers.commit == MadeUnread && |revisions| == 1)
  }

  /** The implementer's stage and the inspection behind it; `goesOn` is false when the run ends. */
  method ImplementStage(request: Request, answers: Answers, packet: Packet)
    returns (next: Packet, ghost calls: nat, goesOn: bool)
    requires Open(packet) && request.mode.RunsImplementer()
    ensures goesOn <==> Implemented(request, answers)
    ensures goesOn ==> Open(next) && Shows(next, answers.inspections(1))
    ensures !goesOn ==> Consistent(next) && !next.status.IsSuccessful() && next.commands == []
    ensures calls == if request.hasImplementer then 1 else 0
  {
    hide SourcePaths, AnyAllows;
    var broken;
    next, calls, broken := Implement(request, answers, packet);
    if broken || next.status == ExecutorUnavailable {
      return next, calls, false;
    }
    next, goesOn := InspectAllowed(request, answers, 1, next);
    goesOn := goesOn && next.status != Failed;
  }

  /** The last inspection, and the commit of checked changes. */
  method FinishStage(request: Request, answers: Answers, packet: Packet)
    returns (next: Packet, ghost revisions: seq<Revision>)
    requires packet.status == ChecksPassed ==>
      packet.verdict == None && AllSucceeded(packet.commands) && |packet.commands| == |request.commands|
    requires packet.status != ChecksPassed ==> Consistent(packet) && packet.status != Prepared
    requires AllRan(request, answers, packet.commands, |packet.commands|)
    ensures Conclusive(request, answers, next, revisions) && next.status != Prepared
    ensures next.verdict == Some(Approved) <==> packet.status == ChecksPassed && Finished(request, answers)
    ensures next.verdict == Some(Approved) ==> next.changedPaths == answers.inspections(2).value.changedPaths
    ensures packet.status == ExecutorUnavailable ==> next == packet
  {
    hide SourcePaths, AnyAllows;
    revisions := [];
    if packet.status == ExecutorUnavailable {
      return packet, revisions;
    }
    var goesOn;
    next, goesOn := InspectAllowed(request, answers, 2, packet);
    if !goesOn || next.status != ChecksPassed {
      return;
    }
    if request.hasImplementer && !answers.attests(1) {
      return Fail(next, Failed, answers.message), revisions;
    }
    next, revisions := Materialise(answers, next);
  }

  /** For every behaviour of git, implementer and executor: a change is approved exactly if the mode
      runs checks and everything went well from the first inspection to the commit. Then every
      requested command ran in order and succeeded, every final source path is allowed, and there is
      one commit, of exactly these paths, unless there are none. Every other end but an untouched
      preparation is rejected with an error, and has made a commit only if git made it and then could
      not say which. */
  method ExecutePrepared(request: Request, answers: Answers)
    returns (packet: Packet, ghost revisions: seq<Revision>, ghost calls: nat)
    ensures Conclusive(request, answers, packet, revisions)
    ensures packet.verdict == Some(Approved) <==>
      && request.mode.RunsChecks() && Ready(request, answers)
      && ChecksPass(request, answers) && Finished(request, answers)
    ensures packet.verdict == Some(Approved) ==> packet.changedPaths == answers.inspections(2).value.changedPaths
    ensures packet.status == Prepared <==> request.mode == PrepareOnly && Ready(request, answers)
    ensures packet.status == Prepared ==> Open(packet) && Disallowed(request, packet) == [] && revisions == []
    ensures calls == 1 <==>
      request.mode.RunsImplementer() && request.hasImplementer && Allowed(request, answers.inspections(0))
    ensures calls <= 1
  {
    hide SourcePaths, AnyAllows, ChecksPass, Allowed, Finished;
    revisions, calls := [], 0;
    packet := Prepare();
    var goesOn;
    packet, goesOn := InspectAllowed(request, answers, 0, packet);
    if !goesOn {
      return;
    }
    if request.mode.RunsImplementer() {
      packet, calls, goesOn := ImplementStage(request, answers, packet);
      if !goesOn {
        return;
      }
    }
    if request.hasImplementer && !answers.attests(0) {
      packet := Fail(packet, Failed, answers.message);
      return;
    }
    if request.mode.RunsChecks() {
      packet := RunChecks(request, answers, packet);
      packet, revisions := FinishStage(request, answers, packet);
    }
  }
}
