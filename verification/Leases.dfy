/**
 The lease records of campaigns and repositories, and the store that keeps them.
 */
module Leases {
  import opened Wrappers

  const U64_MAX: nat := 0xFFFF_FFFF_FFFF_FFFF

  type U64 = n: nat | n <= U64_MAX

  datatype Lease = Lease(
    campaignId: string, repositoryId: string, pid: nat, acquiredAt: U64, heartbeat: U64,
    heartbeatSeconds: U64, actionTimeoutSeconds: U64)

  /** Who asks for a lease, and when. */
  datatype Request = Request(
    pid: nat, campaignId: string, repositoryId: string, now: U64,
    heartbeatSeconds: U64, actionTimeoutSeconds: U64)

  datatype Records = Records(campaigns: map<string, Lease>, repositories: map<string, Lease>)

  // ---------------------------------------------------------------- the deadline

  function Saturated(n: nat): U64 {
    if n > U64_MAX then U64_MAX else n
  }

  function Interval(lease: Lease, request: Request): U64 {
    if lease.heartbeatSeconds == 0 then request.heartbeatSeconds else lease.heartbeatSeconds
  }

  function ActionTimeout(lease: Lease, request: Request): U64 {
    if lease.actionTimeoutSeconds == 0 then request.actionTimeoutSeconds else lease.actionTimeoutSeconds
  }

  /** `lease_is_stale`, in saturating 64-bit arithmetic. */
  predicate Stale(lease: Lease, request: Request) {
    var twice := Saturated(Interval(lease, request) * 2);
    var deadline := Saturated(Saturated(lease.heartbeat + twice) + ActionTimeout(lease, request));
    request.now > deadline
  }

  /** Saturation never changes the answer. */
  lemma StaleIsExact(lease: Lease, request: Request)
    ensures Stale(lease, request) <==>
      request.now > lease.heartbeat + 2 * Interval(lease, request) + ActionTimeout(lease, request)
  {
  }

  predicate Active(lease: Lease, request: Request, alive: set<nat>) {
    lease.pid in alive && !Stale(lease, request)
  }

  // ---------------------------------------------------------------- what the operations do to the records

  function Granted(request: Request): Lease {
    Lease(request.campaignId, request.repositoryId, request.pid, request.now, request.now,
      request.heartbeatSeconds, request.actionTimeoutSeconds)
  }

  /** The lease that this very process holds for this very campaign. */
  predicate Owns(lease: Lease, request: Request) {
    lease.campaignId == request.campaignId && lease.pid == request.pid
  }

  predicate CampaignHeld(records: Records, request: Request, alive: set<nat>) {
    && request.campaignId in records.campaigns
    && var lease := records.campaigns[request.campaignId];
      lease.pid != request.pid && Active(lease, request, alive)
  }

  /** Another campaign's lease counts even when this very process holds it. */
  predicate RepositoryHeld(records: Records, request: Request, alive: set<nat>) {
    && request.repositoryId in records.repositories
    && var lease := records.repositories[request.repositoryId];
      !Owns(lease, request) && Active(lease, request, alive)
  }

  predicate Grants(records: Records, request: Request, alive: set<nat>) {
    !CampaignHeld(records, request, alive) && !RepositoryHeld(records, request, alive)
  }

  /** A refused request may still have removed the campaign record of a process that is gone. */
  function Acquired(records: Records, request: Request, alive: set<nat>): Records {
    if CampaignHeld(records, request, alive) then
      records
    else if RepositoryHeld(records, request, alive) then
      if request.campaignId in records.campaigns && records.campaigns[request.campaignId].pid != request.pid then
        records.(campaigns := records.campaigns - {request.campaignId})
      else
        records
    else
      Records(records.campaigns[request.campaignId := Granted(request)],
        records.repositories[request.repositoryId := Granted(request)])
  }

  /** A request that the repository refuses has removed the record of another process of its campaign, and
      nothing else; one that the campaign refuses has removed nothing. */
  lemma RefusalClears(records: Records, request: Request, alive: set<nat>)
    requires !Grants(records, request, alive)
    ensures var after := Acquired(records, request, alive);
      && after.repositories == records.repositories
      && (CampaignHeld(records, request, alive) ==> after == records)
      && (!CampaignHeld(records, request, alive) ==>
          forall c :: c in after.campaigns <==>
            c in records.campaigns && (c == request.campaignId ==> records.campaigns[c].pid == request.pid))
      && (forall c :: c in after.campaigns ==> after.campaigns[c] == records.campaigns[c])
  {
  }

  predicate Beats(records: Records, pid: nat, campaignId: string) {
    campaignId in records.campaigns && records.campaigns[campaignId].pid == pid
  }

  function Beaten(records: Records, pid: nat, campaignId: string, repositoryId: string, now: U64): Records {
    if Beats(records, pid, campaignId) then
      var lease := records.campaigns[campaignId].(heartbeat := now);
      Records(records.campaigns[campaignId := lease], records.repositories[repositoryId := lease])
    else
      records
  }

  /** Nothing here asks who releases. */
  function Released(records: Records, campaignId: string, repositoryId: string): Records {
    Records(records.campaigns - {campaignId},
      if repositoryId in records.repositories && records.repositories[repositoryId].campaignId == campaignId then
        records.repositories - {repositoryId}
      else
        records.repositories)
  }

  // ---------------------------------------------------------------- the store

  /** Each operation runs under one file lock and is one step. */
  class LeaseStore {
    var campaigns: map<string, Lease>
    var repositories: map<string, Lease>

    constructor ()
      ensures Current() == Records(map[], map[])
    {
      campaigns, repositories := map[], map[];
    }

    function Current(): Records
      reads this
    {
      Records(campaigns, repositories)
    }

    /** `fail_if_held` on the campaign's record. */
    method FailIfCampaignHeld(request: Request, alive: set<nat>) returns (r: Result<()>)
      modifies `campaigns
      ensures r.Err? <==> CampaignHeld(old(Current()), request, alive)
      ensures campaigns ==
        if r.Ok? && request.campaignId in old(campaigns) && old(campaigns)[request.campaignId].pid != request.pid
        then old(campaigns) - {request.campaignId}
        else old(campaigns)
    {
      if request.campaignId !in campaigns {
        return Ok(());
      }
      var lease := campaigns[request.campaignId];
      if lease.pid == request.pid {
        return Ok(());
      }
      if Active(lease, request, alive) {
        return Err(false);
      }
      campaigns := campaigns - {request.campaignId};
      return Ok(());
    }

    /** `fail_if_repository_held` */
    method FailIfRepositoryHeld(request: Request, alive: set<nat>) returns (r: Result<()>)
      modifies `repositories
      ensures r.Err? <==> RepositoryHeld(old(Current()), request, alive)
      ensures repositories ==
        if r.Ok? && request.repositoryId in old(repositories)
          && !Owns(old(repositories)[request.repositoryId], request)
        then old(repositories) - {request.repositoryId}
        else old(repositories)
    {
      if request.repositoryId !in repositories {
        return Ok(());
      }
      var lease := repositories[request.repositoryId];
      if Owns(lease, request) {
        return Ok(());
      }
      if Active(lease, request, alive) {
        return Err(false);
      }
      repositories := repositories - {request.repositoryId};
      return Ok(());
    }

    method Acquire(request: Request, alive: set<nat>) returns (r: Result<Lease>)
      modifies this
      ensures r.Ok? <==> Grants(old(Current()), request, alive)
      ensures r.Ok? ==> r.value == Granted(request)
      ensures r.Ok? ==> r.value.acquiredAt == request.now && r.value.heartbeat == request.now
      ensures Current() == Acquired(old(Current()), request, alive)
    {
      var _ :- FailIfCampaignHeld(request, alive);
      var _ :- FailIfRepositoryHeld(request, alive);
      var lease := Granted(request);
      assert repositories[request.repositoryId := lease] == old(repositories)[request.repositoryId := lease];
      assert campaigns[request.campaignId := lease] == old(campaigns)[request.campaignId := lease];
      campaigns := campaigns[request.campaignId := lease];
      repositories := repositories[request.repositoryId := lease];
      return Ok(lease);
    }

    method Heartbeat(pid: nat, campaignId: string, repositoryId: string, now: U64) returns (r: Result<()>)
      modifies this
      ensures r.Ok? <==> Beats(old(Current()), pid, campaignId)
      ensures Current() == Beaten(old(Current()), pid, campaignId, repositoryId, now)
    {
      if campaignId !in campaigns {
        return Err(false);
      }
      var lease := campaigns[campaignId];
      if lease.pid != pid {
        return Err(false);
      }
      lease := lease.(heartbeat := now);
      campaigns := campaigns[campaignId := lease];
      repositories := repositories[repositoryId := lease];
      return Ok(());
    }

    method Release(campaignId: string, repositoryId: string)
      modifies this
      ensures Current() == Released(old(Current()), campaignId, repositoryId)
    {
      if campaignId in campaigns {
        campaigns := campaigns - {campaignId};
      }
      if repositoryId in repositories {
        if repositories[repositoryId].campaignId == campaignId {
          repositories := repositories - {repositoryId};
        }
      }
    }
  }
}
