/** What each step of a call answers, told from the call's policy, the mode of the breaker it holds and the calls
    let through before (internal/core/governance/runtime.go, ratelimit.go, circuitbreaker.go). */
module GovernanceVerdicts {
  import opened Options
  import opened CircuitBreakers
  import opened GovernancePolicy
  import opened GovernanceRuntime
  import opened GovernanceProbes
  import opened TokenBuckets

  /** The breaker a call has found has the call's own policy. */
  lemma FoundBreakerHasPolicy(steps: seq<Step>, c: nat)
    requires var s := Run(StartSystem, steps); c in s.calls && s.calls[c].Found?
    ensures var s := Run(StartSystem, steps);
            var b := s.calls[c].req.policy.breaking;
            && s.calls[c].breaker < |s.heap|
            && var p := s.heap[s.calls[c].breaker].policy;
            && p.minRequests == b.minRequests && p.errorRate == b.errorRate
            && p.openDuration == b.openDuration && p.halfOpenMax == b.halfOpenMax && p.halfOpenMax >= 1
  {
    EveryRunKeeps(steps);
    var s := Run(StartSystem, steps);
    assert CallOk(s.heap, s.calls[c]);
    assert Unwedged(s, s.calls[c].breaker);
  }

  /** Over every interleaving, a call that asks is let through: always by a closed breaker, which stays as it was; by a
      half-open one exactly when fewer calls than the call's policy allows were let through since it became half-open;
      by an open one exactly from the end of its open duration on. Otherwise the call ends with the circuit open. */
  lemma AskVerdict(steps: seq<Step>, c: nat, now: real)
    requires var s := Run(StartSystem, steps); c in s.calls && s.calls[c].Found?
    ensures var s, s' := Run(StartSystem, steps), Next(Run(StartSystem, steps), Ask(c, now));
            var id := s.calls[c].breaker;
            && id < |s.heap|
            && c in s'.calls
            && (s'.calls[c] == Invoking(s.calls[c].req, Some(id)) || s'.calls[c] == Finished(CircuitOpen))
            && (s.heap[id].mode == Closed ==> s'.calls[c].Invoking? && s'.heap == s.heap)
            && (s.heap[id].mode == HalfOpen ==>
                  (s'.calls[c].Invoking? <==> |Probes(steps, id)| < s.calls[c].req.policy.breaking.halfOpenMax))
            && (s.heap[id].mode == Open ==> (s'.calls[c].Invoking? <==> now >= s.heap[id].openedUntil))
  {
    EveryRunKeepsProbes(steps, Run(StartSystem, steps).calls[c].breaker);
    FoundBreakerHasPolicy(steps, c);
  }

  /** A call of a policy without breaker goes on to the invoker and touches no breaker. */
  lemma DisabledBreakerIsPassed(s: System, c: nat)
    requires c in s.calls && s.calls[c].RatePassed? && !s.calls[c].req.policy.breaking.enabled
    ensures Next(s, FindBreaker(c)) == s.(calls := s.calls[c := Invoking(s.calls[c].req, None)])
  {
  }

  /** A key's breaker is replaced by a new closed one exactly when it was made for another policy. */
  lemma BreakerFollowsPolicy(s: System, c: nat)
    requires c in s.calls && s.calls[c].RatePassed? && s.calls[c].req.policy.breaking.enabled
    requires forall k :: k in s.registry ==> s.registry[k] < |s.heap|
    ensures var s' := Next(s, FindBreaker(c));
            var key, b := s.calls[c].req.breakerKey, s.calls[c].req.policy.breaking;
            && key in s'.registry && s'.registry[key] < |s'.heap|
            && s'.calls[c] == Found(s.calls[c].req, s'.registry[key])
            && (key in s.registry
                && s.heap[s.registry[key]].policy.minRequests == b.minRequests
                && s.heap[s.registry[key]].policy.errorRate == b.errorRate
                && s.heap[s.registry[key]].policy.openDuration == b.openDuration
                && s.heap[s.registry[key]].policy.halfOpenMax == b.halfOpenMax
                ==> s'.registry == s.registry && s'.heap == s.heap)
            && (key !in s.registry
                || s.heap[s.registry[key]].policy.minRequests != b.minRequests
                || s.heap[s.registry[key]].policy.errorRate != b.errorRate
                || s.heap[s.registry[key]].policy.openDuration != b.openDuration
                || s.heap[s.registry[key]].policy.halfOpenMax != b.halfOpenMax
                ==> s'.registry[key] == |s.heap| && s'.heap[|s.heap|].mode == Closed
                    && s'.heap[|s.heap|].requests == 0 && s'.heap[|s.heap|].policy.minRequests == b.minRequests
                    && s'.heap[|s.heap|].policy.errorRate == b.errorRate
                    && s'.heap[|s.heap|].policy.openDuration == b.openDuration
                    && s'.heap[|s.heap|].policy.halfOpenMax == b.halfOpenMax)
  {
  }

  /** An unauthorized call is denied, and a call of a policy without limit passes; neither is charged to a bucket. */
  lemma UnchargedCalls(s: System, c: nat, now: real)
    requires c in s.calls && s.calls[c].Arrived?
    ensures var req, s' := s.calls[c].req, Next(s, CheckRate(c, now));
            && (!req.authorized ==> s' == s.(calls := s.calls[c := Finished(Denied)]))
            && (req.authorized && (!req.policy.rate.enabled || req.policy.rate.qps <= 0) ==>
                  s' == s.(calls := s.calls[c := RatePassed(req)]))
            && (req.authorized && req.policy.rate.enabled && req.policy.rate.qps > 0 ==>
                  Charges(s, CheckRate(c, now), req.rateKey))
  {
  }

  /** A charged call whose key has no bucket, or one of another rate or burst, starts a full one and passes. */
  lemma FirstChargePasses(s: System, c: nat, now: real)
    requires c in s.calls && s.calls[c].Arrived? && Charges(s, CheckRate(c, now), s.calls[c].req.rateKey)
    requires var key, r := s.calls[c].req.rateKey, s.calls[c].req.policy.rate;
             && r.burst > 0
             && (key in s.limiters ==> s.limiters[key].qps != r.qps || s.limiters[key].burst != r.burst)
    ensures var key, r := s.calls[c].req.rateKey, s.calls[c].req.policy.rate;
            var s' := Next(s, CheckRate(c, now));
            && c in s'.calls && s'.calls[c] == RatePassed(s.calls[c].req)
            && key in s'.limiters
            && s'.limiters[key].qps == r.qps && s'.limiters[key].burst == r.burst
            && s'.limiters[key].tokens == r.burst as real - 1.0 && s'.limiters[key].last == now
            && forall k :: k != key ==> (k in s'.limiters <==> k in s.limiters) &&
                                         (k in s.limiters ==> s'.limiters[k] == s.limiters[k])
  {
  }

  /** A call reports its own outcome, to the breaker that let it through and to no other. */
  lemma ReportEndsCall(s: System, c: nat, success: bool, now: real)
    requires c in s.calls && s.calls[c].Invoking?
    ensures var s' := Next(s, Report(c, success, now));
            && s'.calls == s.calls[c := Finished(if success then Succeeded else FellBack)]
            && s'.registry == s.registry && s'.limiters == s.limiters && |s'.heap| == |s.heap|
            && forall id :: 0 <= id < |s.heap| && s.calls[c].held != Some(id) ==> s'.heap[id] == s.heap[id]
  {
  }
}
