/**
 The bounded waits of dependency recovery and their configuration.
 */
module Recovery {
  /** The worker-recovery part of the operations configuration. */
  datatype RecoveryLimits = RecoveryLimits(maxWaitSeconds: nat, retryDelays: seq<nat>, maxAttempts: nat)

  /** One wait: how long, and how long recovery had been going on before it. */
  datatype Sleep = Sleep(seconds: nat, elapsed: nat)

  const REVIEWER_DELAYS: seq<nat> := [2, 5]
  const REVIEWER_MAX_ATTEMPTS: nat := 3

  /** What `SupervisorConfig::validate` asks of the recovery settings. */
  predicate Validated(limits: RecoveryLimits) {
    && limits.maxWaitSeconds >= 60
    && limits.retryDelays != []
    && |limits.retryDelays| + 1 >= limits.maxAttempts
    && (forall k :: 0 <= k < |limits.retryDelays| ==> limits.retryDelays[k] >= 1)
    && limits.maxAttempts >= 2
  }

  /** `recovery_delay_seconds`: the index is clamped at both ends, and no delays mean one second. */
  function DelaySeconds(delays: seq<nat>, attempt: nat): nat {
    if delays == [] then
      1
    else
      var behind := if attempt == 0 then 0 else attempt - 1;
      delays[if behind < |delays| then behind else |delays| - 1]
  }

  /** The configured delays are used one by one, and the last one again and again; however often recovery
      asks, it never waits less than the shortest of them, nor less than a second without any. */
  lemma DelaysRepeat(delays: seq<nat>, attempt: nat, least: nat)
    requires forall k :: 0 <= k < |delays| ==> delays[k] >= least
    ensures 1 <= attempt <= |delays| ==> DelaySeconds(delays, attempt) == delays[attempt - 1]
    ensures delays != [] && attempt >= |delays| ==> DelaySeconds(delays, attempt) == delays[|delays| - 1]
    ensures DelaySeconds(delays, attempt) >= if delays == [] then 1 else least
  {
  }

  /** The waits follow the attempts one by one, each started inside the time limit. */
  predicate Waits(sleeps: seq<Sleep>, delays: seq<nat>, maxWaitSeconds: nat) {
    forall k :: 0 <= k < |sleeps| ==>
      sleeps[k].seconds == DelaySeconds(delays, k + 1) && sleeps[k].elapsed < maxWaitSeconds
  }

  predicate Bounded(sleeps: seq<Sleep>, limits: RecoveryLimits) {
    Waits(sleeps, limits.retryDelays, limits.maxWaitSeconds) && (sleeps == [] || |sleeps| < limits.maxAttempts)
  }

  function Seconds(sleeps: seq<Sleep>): (seconds: seq<nat>)
    ensures |seconds| == |sleeps|
    ensures forall k :: 0 <= k < |sleeps| ==> seconds[k] == sleeps[k].seconds
  {
    seq(|sleeps|, k requires 0 <= k < |sleeps| => sleeps[k].seconds)
  }

  /** Under a validated configuration the clamp never fires: the waits are exactly the first
      configured delays, and the last attempt is not followed by one. */
  lemma WaitsAreTheConfiguredDelays(sleeps: seq<Sleep>, limits: RecoveryLimits)
    requires Validated(limits) && Bounded(sleeps, limits)
    ensures |sleeps| <= limits.maxAttempts - 1 <= |limits.retryDelays|
    ensures Seconds(sleeps) == limits.retryDelays[..|sleeps|]
    ensures forall k :: 0 <= k < |sleeps| ==> sleeps[k].seconds >= 1 && sleeps[k].elapsed < limits.maxWaitSeconds
  {
    assert Waits(sleeps, limits.retryDelays, limits.maxWaitSeconds);
    forall k | 0 <= k < |sleeps|
      ensures Seconds(sleeps)[k] == limits.retryDelays[..|sleeps|][k]
      ensures sleeps[k].seconds >= 1
    {
      assert k + 1 - 1 < |limits.retryDelays|;
    }
  }

  function Total(seconds: seq<nat>): nat {
    if seconds == [] then 0 else Total(seconds[..|seconds| - 1]) + seconds[|seconds| - 1]
  }

  lemma {:induction false} PrefixTotal(seconds: seq<nat>, n: nat)
    requires n <= |seconds|
    ensures Total(seconds[..n]) <= Total(seconds)
    decreases |seconds|
  {
    if n < |seconds| {
      PrefixTotal(seconds[..|seconds| - 1], n);
      assert seconds[..|seconds| - 1][..n] == seconds[..n];
    } else {
      assert seconds[..n] == seconds;
    }
  }

  /** Recovery never waits longer than all configured delays together. */
  lemma WaitsAreBounded(sleeps: seq<Sleep>, limits: RecoveryLimits)
    requires Validated(limits) && Bounded(sleeps, limits)
    ensures Total(Seconds(sleeps)) <= Total(limits.retryDelays)
  {
    WaitsAreTheConfiguredDelays(sleeps, limits);
    PrefixTotal(limits.retryDelays, |sleeps|);
  }

  /** The longest waits that the bounds allow. */
  function LongestWaits(limits: RecoveryLimits): seq<Sleep> {
    seq(if limits.maxAttempts == 0 then 0 else limits.maxAttempts - 1,
      k requires k >= 0 => Sleep(DelaySeconds(limits.retryDelays, k + 1), 0))
  }

  /** The configuration check is needed: the index clamp never fires, and recovery waits only for
      configured delays, exactly when the delays cover all attempts but the last. */
  lemma ClampNeverFiresIff(limits: RecoveryLimits)
    requires limits.maxWaitSeconds > 0
    ensures |limits.retryDelays| + 1 >= limits.maxAttempts <==>
      forall sleeps :: Bounded(sleeps, limits) ==> |sleeps| <= |limits.retryDelays|
    ensures |limits.retryDelays| + 1 >= limits.maxAttempts ==>
      forall sleeps :: Bounded(sleeps, limits) ==> Seconds(sleeps) == limits.retryDelays[..|sleeps|]
  {
    assert Bounded(LongestWaits(limits), limits);
    if |limits.retryDelays| + 1 >= limits.maxAttempts {
      forall sleeps | Bounded(sleeps, limits)
        ensures |sleeps| <= |limits.retryDelays| && Seconds(sleeps) == limits.retryDelays[..|sleeps|]
      {
        assert Waits(sleeps, limits.retryDelays, limits.maxWaitSeconds);
      }
    }
  }

  lemma AppendWait(sleeps: seq<Sleep>, delays: seq<nat>, maxWaitSeconds: nat, elapsed: nat)
    requires Waits(sleeps, delays, maxWaitSeconds) && elapsed < maxWaitSeconds
    ensures Waits(sleeps + [Sleep(DelaySeconds(delays, |sleeps| + 1), elapsed)], delays, maxWaitSeconds)
  {
  }
}
