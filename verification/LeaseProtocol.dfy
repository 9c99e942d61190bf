/**
 The lease protocol over any number of processes: what the records of `Leases` mean for the
 processes that believe they hold a lease.
 */
module LeaseProtocol {
  import opened Leases

  /** A process holds a lease from the moment it is granted until it releases it or dies. */
  datatype Hold = Hold(pid: nat, campaignId: string)

  /** When a lease was granted or beaten last, and the intervals it was granted with. */
  datatype Renewal = Renewal(time: U64, heartbeatSeconds: U64, actionTimeoutSeconds: U64)

  /** `seen`: process ids that have been used; `latest`: who was granted each campaign last;
      `renewals`: what the clocks of the holders said, whatever the records say. */
  datatype System = System(
    records: Records, live: set<nat>, seen: set<nat>, holds: set<Hold>, latest: map<string, nat>,
    renewals: map<Hold, Renewal>)

  datatype Step =
    | Spawn(pid: nat)
    | Die(pid: nat)
    | Acquire(request: Request)
    | Heartbeat(pid: nat, campaignId: string, now: U64)
    | Release(pid: nat, campaignId: string)

  /** A campaign names its repository once and for all. */
  type Assignment = string -> string

  function Next(repositoryOf: Assignment, s: System, step: Step): System {
    match step
    case Spawn(pid) => s.(live := s.live + {pid}, seen := s.seen + {pid})
    case Die(pid) => s.(live := s.live - {pid}, holds := set h | h in s.holds && h.pid != pid)
    case Acquire(request) =>
      var after := s.(records := Acquired(s.records, request, s.live));
      if Grants(s.records, request, s.live) then
        after.(holds := s.holds + {Hold(request.pid, request.campaignId)},
          latest := s.latest[request.campaignId := request.pid],
          renewals := s.renewals[Hold(request.pid, request.campaignId) :=
            Renewal(request.now, request.heartbeatSeconds, request.actionTimeoutSeconds)])
      else
        after
    case Heartbeat(pid, campaignId, now) =>
      var own := Hold(pid, campaignId);
      var after := s.(records := Beaten(s.records, pid, campaignId, repositoryOf(campaignId), now));
      if Beats(s.records, pid, campaignId) && own in s.renewals then
        after.(renewals := s.renewals[own := s.renewals[own].(time := now)])
      else
        after
    case Release(pid, campaignId) =>
      s.(records := Released(s.records, campaignId, repositoryOf(campaignId)),
        holds := s.holds - {Hold(pid, campaignId)})
  }

  /** Process ids are not reused, and only live processes act, on their campaign's repository. */
  predicate Enabled(repositoryOf: Assignment, s: System, step: Step) {
    match step
    case Spawn(pid) => pid !in s.seen
    case Die(pid) => true
    case Acquire(request) => request.pid in s.live && request.repositoryId == repositoryOf(request.campaignId)
    case Heartbeat(pid, _, _) => pid in s.live
    case Release(pid, _) => pid in s.live
  }

  // ---------------------------------------------------------------- what a hold means

  /** The holder's campaign record and repository record are there, agree, and name it. */
  predicate Backed(repositoryOf: Assignment, s: System, hold: Hold) {
    var repositoryId := repositoryOf(hold.campaignId);
    && hold.pid in s.live
    && hold.campaignId in s.records.campaigns
    && repositoryId in s.records.repositories
    && s.records.repositories[repositoryId] == s.records.campaigns[hold.campaignId]
    && s.records.campaigns[hold.campaignId].pid == hold.pid
    && s.records.campaigns[hold.campaignId].campaignId == hold.campaignId
    && hold in s.renewals && Shows(s.records.campaigns[hold.campaignId], s.renewals[hold])
  }

  /** The record carries the times of the last renewal. */
  predicate Shows(lease: Lease, renewal: Renewal) {
    && lease.heartbeat == renewal.time
    && lease.heartbeatSeconds == renewal.heartbeatSeconds
    && lease.actionTimeoutSeconds == renewal.actionTimeoutSeconds
  }

  ghost predicate AllBacked(repositoryOf: Assignment, s: System) {
    forall h :: h in s.holds ==> Backed(repositoryOf, s, h)
  }

  /** A campaign record that names a live process is that process's. */
  ghost predicate Tracked(s: System) {
    && s.live <= s.seen
    && (forall c :: c in s.records.campaigns ==> s.records.campaigns[c].pid in s.seen)
    && (forall c :: c in s.records.campaigns && s.records.campaigns[c].pid in s.live ==>
          Hold(s.records.campaigns[c].pid, c) in s.holds)
  }

  ghost predicate Sound(repositoryOf: Assignment, s: System) {
    AllBacked(repositoryOf, s) && Tracked(s)
  }

  /** At most one live process holds a repository, whichever campaigns it is held for. */
  lemma MutualExclusion(repositoryOf: Assignment, s: System, g: Hold, h: Hold)
    requires Sound(repositoryOf, s) && g in s.holds && h in s.holds
    requires repositoryOf(g.campaignId) == repositoryOf(h.campaignId)
    ensures g == h
  {
    assert Backed(repositoryOf, s, g) && Backed(repositoryOf, s, h);
  }

  // ---------------------------------------------------------------- one step

  /** The request would take over what `hold` holds. */
  predicate Contends(repositoryOf: Assignment, hold: Hold, request: Request) {
    if hold.campaignId == request.campaignId then
      hold.pid != request.pid
    else
      repositoryOf(hold.campaignId) == request.repositoryId
  }

  /** The last second of a renewal: two intervals and the action time after it; an interval of zero
      stands for that of whoever asks. */
  function LastSecond(renewal: Renewal, request: Request): nat {
    renewal.time +
    2 * (if renewal.heartbeatSeconds > 0 then renewal.heartbeatSeconds else request.heartbeatSeconds) +
    if renewal.actionTimeoutSeconds > 0 then renewal.actionTimeoutSeconds else request.actionTimeoutSeconds
  }

  /** Live holders renew often enough: whoever a request contends with has done so, by the holders' own
      clocks, no longer ago than its lease lasts. */
  ghost predicate Timely(repositoryOf: Assignment, s: System, step: Step) {
    step.Acquire? ==>
      forall h :: h in s.holds && Contends(repositoryOf, h, step.request) && h in s.renewals ==>
        step.request.now <= LastSecond(s.renewals[h], step.request)
  }

  /** A record that shows a renewal is stale exactly after its last second. */
  lemma StaleIsLate(lease: Lease, renewal: Renewal, request: Request)
    requires Shows(lease, renewal)
    ensures Stale(lease, request) <==> request.now > LastSecond(renewal, request)
  {
    StaleIsExact(lease, request);
  }

  /** Only holders release. */
  predicate Owned(s: System, step: Step) {
    step.Release? ==> Hold(step.pid, step.campaignId) in s.holds
  }

  /** Granting a lease keeps the protocol sound exactly when it takes nothing from a live holder,
      and then that holder had missed its deadline. */
  lemma AcquireIsSoundIff(repositoryOf: Assignment, s: System, request: Request)
    requires Sound(repositoryOf, s) && Enabled(repositoryOf, s, Acquire(request)) && Grants(s.records, request, s.live)
    ensures Sound(repositoryOf, Next(repositoryOf, s, Acquire(request))) <==>
      forall h :: h in s.holds ==> !Contends(repositoryOf, h, request)
    ensures forall h :: h in s.holds && Contends(repositoryOf, h, request) ==>
      Stale(s.records.campaigns[h.campaignId], request)
  {
    hide Stale;
    var t := Next(repositoryOf, s, Acquire(request));
    forall h | h in s.holds && Contends(repositoryOf, h, request)
      ensures Stale(s.records.campaigns[h.campaignId], request) && !Backed(repositoryOf, t, h)
    {
      assert Backed(repositoryOf, s, h);
    }
    if forall h :: h in s.holds ==> !Contends(repositoryOf, h, request) {
      forall h | h in t.holds
        ensures Backed(repositoryOf, t, h)
      {
        if h in s.holds {
          assert Backed(repositoryOf, s, h) && !Contends(repositoryOf, h, request);
        }
      }
    }
  }

  /** A refused request takes nothing from anybody: the campaign record it may remove is nobody's. */
  lemma RefusalKeepsSound(repositoryOf: Assignment, s: System, request: Request)
    requires Sound(repositoryOf, s) && Enabled(repositoryOf, s, Acquire(request)) && !Grants(s.records, request, s.live)
    ensures Sound(repositoryOf, Next(repositoryOf, s, Acquire(request)))
  {
    hide Stale;
    var t := Next(repositoryOf, s, Acquire(request));
    forall h | h in t.holds
      ensures Backed(repositoryOf, t, h)
    {
      assert Backed(repositoryOf, s, h);
    }
  }

  lemma HeartbeatKeepsSound(repositoryOf: Assignment, s: System, pid: nat, campaignId: string, now: U64)
    requires Sound(repositoryOf, s) && pid in s.live
    ensures Sound(repositoryOf, Next(repositoryOf, s, Heartbeat(pid, campaignId, now)))
  {
    var t := Next(repositoryOf, s, Heartbeat(pid, campaignId, now));
    if Beats(s.records, pid, campaignId) {
      var own := Hold(pid, campaignId);
      assert own in s.holds && Backed(repositoryOf, s, own);
      forall h | h in t.holds
        ensures Backed(repositoryOf, t, h)
      {
        assert Backed(repositoryOf, s, h);
        if repositoryOf(h.campaignId) == repositoryOf(campaignId) {
          MutualExclusion(repositoryOf, s, h, own);
        }
      }
    } else {
      assert forall h :: h in s.holds ==> Backed(repositoryOf, s, h);
      assert forall h :: Backed(repositoryOf, s, h) ==> Backed(repositoryOf, t, h);
    }
  }

  /** `release` does not look at who calls it: it keeps the protocol sound exactly when no other
      process holds the campaign. */
  lemma ReleaseIsSoundIff(repositoryOf: Assignment, s: System, pid: nat, campaignId: string)
    requires Sound(repositoryOf, s)
    ensures Sound(repositoryOf, Next(repositoryOf, s, Release(pid, campaignId))) <==>
      forall h :: h in s.holds && h.campaignId == campaignId ==> h.pid == pid
  {
    var t := Next(repositoryOf, s, Release(pid, campaignId));
    forall h | h in s.holds && h.campaignId == campaignId && h.pid != pid
      ensures h in t.holds && !Backed(repositoryOf, t, h)
    {
    }
    if forall h :: h in s.holds && h.campaignId == campaignId ==> h.pid == pid {
      forall h | h in t.holds
        ensures Backed(repositoryOf, t, h)
      {
        assert Backed(repositoryOf, s, h) && h.campaignId != campaignId;
      }
    }
  }

  lemma DeathKeepsSound(repositoryOf: Assignment, s: System, pid: nat)
    requires Sound(repositoryOf, s)
    ensures Sound(repositoryOf, Next(repositoryOf, s, Die(pid)))
  {
    var t := Next(repositoryOf, s, Die(pid));
    forall h | h in t.holds
      ensures Backed(repositoryOf, t, h)
    {
      assert Backed(repositoryOf, s, h);
    }
  }

  lemma SpawnKeepsSound(repositoryOf: Assignment, s: System, pid: nat)
    requires Sound(repositoryOf, s) && pid !in s.seen
    ensures Sound(repositoryOf, Next(repositoryOf, s, Spawn(pid)))
  {
    var t := Next(repositoryOf, s, Spawn(pid));
    forall h | h in t.holds
      ensures Backed(repositoryOf, t, h)
    {
      assert Backed(repositoryOf, s, h);
    }
  }

  /** The step takes something from a live holder; all of this is known before it. */
  ghost predicate Disturbs(repositoryOf: Assignment, s: System, step: Step) {
    match step
    case Acquire(request) =>
      Grants(s.records, request, s.live) && exists h :: h in s.holds && Contends(repositoryOf, h, request)
    case Release(pid, campaignId) => exists h :: h in s.holds && h.campaignId == campaignId && h.pid != pid
    case _ => false
  }

  /** Every step keeps the protocol sound exactly unless it takes something from a live holder. */
  lemma StepIsSoundIff(repositoryOf: Assignment, s: System, step: Step)
    requires Sound(repositoryOf, s) && Enabled(repositoryOf, s, step)
    ensures Sound(repositoryOf, Next(repositoryOf, s, step)) <==> !Disturbs(repositoryOf, s, step)
  {
    hide Stale, Grants, Contends, Sound, Next;
    match step
    case Spawn(pid) => SpawnKeepsSound(repositoryOf, s, pid);
    case Die(pid) => DeathKeepsSound(repositoryOf, s, pid);
    case Acquire(request) =>
      if Grants(s.records, request, s.live) {
        AcquireIsSoundIff(repositoryOf, s, request);
      } else {
        RefusalKeepsSound(repositoryOf, s, request);
      }
    case Heartbeat(pid, campaignId, now) => HeartbeatKeepsSound(repositoryOf, s, pid, campaignId, now);
    case Release(pid, campaignId) => ReleaseIsSoundIff(repositoryOf, s, pid, campaignId);
  }

  /** Timely holders are not disturbed, and holders that release disturb nobody. */
  lemma TimelyDoesNotDisturb(repositoryOf: Assignment, s: System, step: Step)
    requires Sound(repositoryOf, s) && Enabled(repositoryOf, s, step)
    requires Timely(repositoryOf, s, step) && Owned(s, step)
    ensures !Disturbs(repositoryOf, s, step)
  {
    if step.Acquire? && Grants(s.records, step.request, s.live) {
      AcquireIsSoundIff(repositoryOf, s, step.request);
      hide Stale, Grants;
      forall h | h in s.holds
        ensures !Contends(repositoryOf, h, step.request)
      {
        assert Backed(repositoryOf, s, h);
        StaleIsLate(s.records.campaigns[h.campaignId], s.renewals[h], step.request);
      }
    } else if step.Release? {
      forall h | h in s.holds && h.campaignId == step.campaignId
        ensures h.pid == step.pid
      {
        MutualExclusion(repositoryOf, s, h, Hold(step.pid, step.campaignId));
      }
    }
  }

  // ---------------------------------------------------------------- what a renewal is worth

  /** A lease that was granted or beaten at some time, by a process that lives, refuses every other
      process up to its last second, and every other campaign of the repository. */
  lemma RenewalDefends(records: Records, alive: set<nat>, lease: Lease, renewal: Renewal, request: Request)
    requires lease.pid in alive && Shows(lease, renewal) && request.now <= LastSecond(renewal, request)
    requires lease.campaignId in records.campaigns && records.campaigns[lease.campaignId] == lease
    requires lease.repositoryId in records.repositories && records.repositories[lease.repositoryId] == lease
    requires (request.campaignId == lease.campaignId && request.pid != lease.pid)
      || (request.campaignId != lease.campaignId && request.repositoryId == lease.repositoryId)
    ensures !Grants(records, request, alive)
  {
    StaleIsLate(lease, renewal, request);
    hide Stale;
  }

  /** A heartbeat at `now` puts the last second off to count from `now`. */
  lemma HeartbeatDefends(records: Records, alive: set<nat>, pid: nat, campaignId: string, now: U64, request: Request)
    requires Beats(records, pid, campaignId) && pid in alive
    requires records.campaigns[campaignId].campaignId == campaignId
    requires var lease := records.campaigns[campaignId];
      request.now <= LastSecond(Renewal(now, lease.heartbeatSeconds, lease.actionTimeoutSeconds), request)
    requires var repositoryId := records.campaigns[campaignId].repositoryId;
      (request.campaignId == campaignId && request.pid != pid)
      || (request.campaignId != campaignId && request.repositoryId == repositoryId)
    ensures !Grants(Beaten(records, pid, campaignId, records.campaigns[campaignId].repositoryId, now), request, alive)
  {
    var lease := records.campaigns[campaignId];
    var renewal := Renewal(now, lease.heartbeatSeconds, lease.actionTimeoutSeconds);
    var after := Beaten(records, pid, campaignId, lease.repositoryId, now);
    hide Stale, Grants;
    RenewalDefends(after, alive, after.campaigns[campaignId], renewal, request);
  }

  /** So does a grant, with the intervals that were asked for. */
  lemma GrantDefends(records: Records, alive: set<nat>, holder: Request, request: Request)
    requires Grants(records, holder, alive) && holder.pid in alive
    requires request.now <=
      LastSecond(Renewal(holder.now, holder.heartbeatSeconds, holder.actionTimeoutSeconds), request)
    requires (request.campaignId == holder.campaignId && request.pid != holder.pid)
      || (request.campaignId != holder.campaignId && request.repositoryId == holder.repositoryId)
    ensures !Grants(Acquired(records, holder, alive), request, alive)
  {
    var renewal := Renewal(holder.now, holder.heartbeatSeconds, holder.actionTimeoutSeconds);
    var after := Acquired(records, holder, alive);
    assert after.campaigns[holder.campaignId] == after.repositories[holder.repositoryId];
    hide Stale, Grants;
    RenewalDefends(after, alive, after.campaigns[holder.campaignId], renewal, request);
  }

  /** Nothing else refuses: a record that is the asker's own, a dead process's or late is taken over. */
  lemma GrantsIff(records: Records, request: Request, alive: set<nat>)
    ensures Grants(records, request, alive) <==>
      && (request.campaignId in records.campaigns ==>
            var lease := records.campaigns[request.campaignId];
            lease.pid == request.pid || Free(lease, request, alive))
      && (request.repositoryId in records.repositories ==>
            var lease := records.repositories[request.repositoryId];
            (lease.pid == request.pid && lease.campaignId == request.campaignId) || Free(lease, request, alive))
  {
    if request.campaignId in records.campaigns {
      FreeIff(records.campaigns[request.campaignId], request, alive);
    }
    if request.repositoryId in records.repositories {
      FreeIff(records.repositories[request.repositoryId], request, alive);
    }
    hide Stale;
  }

  /** The process is gone, or it is past the last second of its lease. */
  predicate Free(lease: Lease, request: Request, alive: set<nat>) {
    || lease.pid !in alive
    || request.now > LastSecond(Renewal(lease.heartbeat, lease.heartbeatSeconds, lease.actionTimeoutSeconds), request)
  }

  lemma FreeIff(lease: Lease, request: Request, alive: set<nat>)
    ensures Free(lease, request, alive) <==> !Active(lease, request, alive)
  {
    StaleIsLate(lease, Renewal(lease.heartbeat, lease.heartbeatSeconds, lease.actionTimeoutSeconds), request);
    hide Stale;
  }

  // ---------------------------------------------------------------- whole runs

  function Initial(): System {
    System(Records(map[], map[]), {}, {}, {}, map[], map[])
  }

  function After(repositoryOf: Assignment, s: System, steps: seq<Step>): System
    decreases |steps|
  {
    if steps == [] then s else After(repositoryOf, Next(repositoryOf, s, steps[0]), steps[1..])
  }

  predicate Run(repositoryOf: Assignment, s: System, steps: seq<Step>)
    decreases |steps|
  {
    steps == [] || (
      Enabled(repositoryOf, s, steps[0]) &&
      Run(repositoryOf, Next(repositoryOf, s, steps[0]), steps[1..]))
  }

  /** Every step of the run is timely and every release is a holder's. */
  ghost predicate WellTimed(repositoryOf: Assignment, s: System, steps: seq<Step>)
    decreases |steps|
  {
    steps == [] || (
      Timely(repositoryOf, s, steps[0]) && Owned(s, steps[0]) &&
      WellTimed(repositoryOf, Next(repositoryOf, s, steps[0]), steps[1..]))
  }

  /** No step of the run takes anything from a live holder. */
  ghost predicate Undisturbed(repositoryOf: Assignment, s: System, steps: seq<Step>)
    decreases |steps|
  {
    steps == [] || (
      !Disturbs(repositoryOf, s, steps[0]) &&
      Undisturbed(repositoryOf, Next(repositoryOf, s, steps[0]), steps[1..]))
  }

  /** The protocol is sound after every step of the run. */
  ghost predicate StaysSound(repositoryOf: Assignment, s: System, steps: seq<Step>)
    decreases |steps|
  {
    steps == [] || (
      Sound(repositoryOf, Next(repositoryOf, s, steps[0])) &&
      StaysSound(repositoryOf, Next(repositoryOf, s, steps[0]), steps[1..]))
  }

  /** A run is sound throughout exactly if no grant contends with a live holder and no release meets
      another one. */
  lemma {:induction false} RunIsSoundIff(repositoryOf: Assignment, s: System, steps: seq<Step>)
    requires Sound(repositoryOf, s) && Run(repositoryOf, s, steps)
    ensures StaysSound(repositoryOf, s, steps) <==> Undisturbed(repositoryOf, s, steps)
    ensures Undisturbed(repositoryOf, s, steps) ==> Sound(repositoryOf, After(repositoryOf, s, steps))
    decreases |steps|
  {
    hide Next, Disturbs, Enabled, Sound;
    if steps != [] {
      StepIsSoundIff(repositoryOf, s, steps[0]);
      var t := Next(repositoryOf, s, steps[0]);
      if Sound(repositoryOf, t) {
        RunIsSoundIff(repositoryOf, t, steps[1..]);
      }
    }
  }

  lemma {:induction false} WellTimedIsUndisturbed(repositoryOf: Assignment, s: System, steps: seq<Step>)
    requires Sound(repositoryOf, s) && Run(repositoryOf, s, steps) && WellTimed(repositoryOf, s, steps)
    ensures Undisturbed(repositoryOf, s, steps)
    decreases |steps|
  {
    hide Next, Disturbs, Timely, Owned, Enabled, Sound;
    if steps != [] {
      TimelyDoesNotDisturb(repositoryOf, s, steps[0]);
      StepIsSoundIff(repositoryOf, s, steps[0]);
      WellTimedIsUndisturbed(repositoryOf, Next(repositoryOf, s, steps[0]), steps[1..]);
    }
  }

  /** Over every well-timed run from the empty store, one repository has one holder. */
  lemma RepositoryHasOneHolder(repositoryOf: Assignment, steps: seq<Step>, g: Hold, h: Hold)
    requires Run(repositoryOf, Initial(), steps) && WellTimed(repositoryOf, Initial(), steps)
    requires g in After(repositoryOf, Initial(), steps).holds && h in After(repositoryOf, Initial(), steps).holds
    requires repositoryOf(g.campaignId) == repositoryOf(h.campaignId)
    ensures g == h && Backed(repositoryOf, After(repositoryOf, Initial(), steps), h)
  {
    WellTimedIsUndisturbed(repositoryOf, Initial(), steps);
    RunIsSoundIff(repositoryOf, Initial(), steps);
    MutualExclusion(repositoryOf, After(repositoryOf, Initial(), steps), g, h);
  }

  // ---------------------------------------------------------------- without any timing assumption

  ghost predicate LatestOwns(s: System) {
    forall c :: c in s.records.campaigns ==> c in s.latest && s.latest[c] == s.records.campaigns[c].pid
  }

  lemma {:induction false} RunKeepsLatest(repositoryOf: Assignment, s: System, steps: seq<Step>)
    requires LatestOwns(s) && Run(repositoryOf, s, steps)
    ensures LatestOwns(After(repositoryOf, s, steps))
    decreases |steps|
  {
    hide Stale;
    if steps != [] {
      assert LatestOwns(Next(repositoryOf, s, steps[0]));
      hide Next, Enabled, LatestOwns;
      RunKeepsLatest(repositoryOf, Next(repositoryOf, s, steps[0]), steps[1..]);
    }
  }

  /** However late anyone is and whoever releases, a heartbeat succeeds only for the process that
      was granted the campaign last: a superseded process finds out at its next heartbeat. */
  lemma HeartbeatIsTheLatest(repositoryOf: Assignment, steps: seq<Step>, pid: nat, campaignId: string)
    requires Run(repositoryOf, Initial(), steps)
    requires var s := After(repositoryOf, Initial(), steps); Beats(s.records, pid, campaignId)
    ensures var s := After(repositoryOf, Initial(), steps);
      campaignId in s.latest && s.latest[campaignId] == pid
  {
    RunKeepsLatest(repositoryOf, Initial(), steps);
  }

  // ---------------------------------------------------------------- what goes wrong when a holder is late

  /** Two processes run the same campaign. The first misses its deadline, loses the lease, and then
      releases it: the second still believes it holds what the third is granted. */
  function Superseded(campaignId: string, repositoryId: string): seq<Step> {
    [Spawn(1), Spawn(2), Spawn(3),
     Acquire(Request(1, campaignId, repositoryId, 0, 10, 60)),
     Acquire(Request(2, campaignId, repositoryId, 81, 10, 60)),
     Release(1, campaignId),
     Acquire(Request(3, campaignId, repositoryId, 82, 10, 60))]
  }

  lemma SupersededGrants(campaignId: string, repositoryId: string)
    ensures var first := Request(1, campaignId, repositoryId, 0, 10, 60);
      var second := Request(2, campaignId, repositoryId, 81, 10, 60);
      var third := Request(3, campaignId, repositoryId, 82, 10, 60);
      var live := {1, 2, 3};
      var none := Records(map[], map[]);
      var one := Records(map[campaignId := Granted(first)], map[repositoryId := Granted(first)]);
      var two := Records(map[campaignId := Granted(second)], map[repositoryId := Granted(second)]);
      && Acquired(none, first, live) == one && Grants(none, first, live)
      && Acquired(one, second, live) == two && Grants(one, second, live)
      && Released(two, campaignId, repositoryId) == none
      && Grants(none, third, live)
  {
  }

  /** Two live processes then hold one campaign: `release` in the sixth step was not the holder's. */
  lemma LateHolderBreaksExclusion(repositoryOf: Assignment, campaignId: string)
    ensures var steps := Superseded(campaignId, repositoryOf(campaignId));
      && Run(repositoryOf, Initial(), steps)
      && var s := After(repositoryOf, Initial(), steps);
        && Hold(2, campaignId) in s.holds && Hold(3, campaignId) in s.holds
        && 2 in s.live && 3 in s.live
  {
    var r := repositoryOf(campaignId);
    var first, second := Request(1, campaignId, r, 0, 10, 60), Request(2, campaignId, r, 81, 10, 60);
    var third := Request(3, campaignId, r, 82, 10, 60);
    var live := {1, 2, 3};
    var one := Records(map[campaignId := Granted(first)], map[r := Granted(first)]);
    var two := Records(map[campaignId := Granted(second)], map[r := Granted(second)]);
    var none := Records(map[], map[]);
    SupersededGrants(campaignId, r);
    hide Grants, Acquired, Released;
    var s0 := Initial();
    var g, h := Hold(1, campaignId), Hold(2, campaignId);
    var s3 := System(none, live, live, {}, map[], map[]);
    var s4 := System(one, live, live, {g}, map[campaignId := 1], map[g := Renewal(0, 10, 60)]);
    var renewals := map[g := Renewal(0, 10, 60), h := Renewal(81, 10, 60)];
    var s5 := System(two, live, live, {g, h}, map[campaignId := 2], renewals);
    var s6 := System(none, live, live, {h}, map[campaignId := 2], renewals);
    assert Next(repositoryOf, Next(repositoryOf, Next(repositoryOf, s0, Spawn(1)), Spawn(2)), Spawn(3)) == s3;
    assert Next(repositoryOf, s3, Acquire(first)) == s4;
    assert Next(repositoryOf, s4, Acquire(second)) == s5;
    assert Next(repositoryOf, s5, Release(1, campaignId)) == s6;
    var steps := Superseded(campaignId, r);
    Unroll(repositoryOf, s0, steps);
    Unroll(repositoryOf, Next(repositoryOf, s0, Spawn(1)), steps[1..]);
    Unroll(repositoryOf, Next(repositoryOf, Next(repositoryOf, s0, Spawn(1)), Spawn(2)), steps[2..]);
    Unroll(repositoryOf, s3, steps[3..]);
    Unroll(repositoryOf, s4, steps[4..]);
    Unroll(repositoryOf, s5, steps[5..]);
    Unroll(repositoryOf, s6, steps[6..]);
  }

  lemma Unroll(repositoryOf: Assignment, s: System, steps: seq<Step>)
    requires steps != []
    ensures After(repositoryOf, s, steps) == After(repositoryOf, Next(repositoryOf, s, steps[0]), steps[1..])
    ensures Run(repositoryOf, s, steps) <==>
      Enabled(repositoryOf, s, steps[0]) && Run(repositoryOf, Next(repositoryOf, s, steps[0]), steps[1..])
  {
  }
}
