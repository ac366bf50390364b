/** Who decides a half-open breaker (internal/core/governance/circuitbreaker.go): the code closes or re-opens it at the
    first report of any call the breaker admitted, whether it was let through as a probe or before the breaker
    opened. */
module GovernanceProbes {
  import opened Options
  import opened CircuitBreakers
  import opened GovernancePolicy
  import opened GovernanceRuntime

  // ---- Probes ----

  /** Whether a step lets a call through breaker `id`. */
  predicate Admits(s: System, step: Step, id: nat) {
    && step.Ask? && step.c in s.calls && s.calls[step.c].Found? && s.calls[step.c].breaker == id < |s.heap|
    && Before(s.heap[id], step.now).1
  }

  predicate IsHalfOpen(s: System, id: nat) {
    id < |s.heap| && s.heap[id].mode == HalfOpen
  }

  function NextProbes(s: System, step: Step, id: nat, probes: set<nat>): set<nat> {
    if !IsHalfOpen(Next(s, step), id) then {}
    else if Admits(s, step, id) then (if IsHalfOpen(s, id) then probes else {}) + {step.c}
    else probes
  }

  /** The calls let through since the breaker last became half-open. */
  function Probes(steps: seq<Step>, id: nat): set<nat> {
    if steps == [] then {}
    else
      var before := steps[..|steps| - 1];
      NextProbes(Run(StartSystem, before), steps[|steps| - 1], id, Probes(before, id))
  }

  /** A half-open breaker counts its probes, and all of them are still to report. */
  ghost predicate ProbesPending(s: System, id: nat, probes: set<nat>) {
    IsHalfOpen(s, id) ==> probes <= Pending(s, id) && |probes| == s.heap[id].halfOpenRequests
  }

  lemma AdmissionKeepsProbes(s: System, c: nat, now: real, id: nat, probes: set<nat>)
    requires ProbesPending(s, id, probes) && Admits(s, Ask(c, now), id)
    ensures ProbesPending(Next(s, Ask(c, now)), id, NextProbes(s, Ask(c, now), id, probes))
  {
    var s' := Next(s, Ask(c, now));
    PendingAfterMove(s, s', c, Some(id), id);
    assert c !in Pending(s, id);
  }

  lemma OtherAskKeepsProbes(s: System, c: nat, now: real, id: nat, probes: set<nat>)
    requires ProbesPending(s, id, probes) && !Admits(s, Ask(c, now), id) && id < |s.heap| && Unwedged(s, id)
    requires c in s.calls && s.calls[c].Found? && s.calls[c].breaker < |s.heap|
    ensures ProbesPending(Next(s, Ask(c, now)), id, NextProbes(s, Ask(c, now), id, probes))
  {
    var s' := Next(s, Ask(c, now));
    PendingAfterMove(s, s', c, Some(s.calls[c].breaker), id);
    assert c !in Pending(s, id);
  }

  lemma ReportKeepsProbes(s: System, c: nat, success: bool, now: real, id: nat, probes: set<nat>)
    requires ProbesPending(s, id, probes) && id < |s.heap| && c in s.calls && s.calls[c].Invoking?
    ensures ProbesPending(Next(s, Report(c, success, now)), id, NextProbes(s, Report(c, success, now), id, probes))
  {
    var s' := Next(s, Report(c, success, now));
    PendingAfterMove(s, s', c, s.calls[c].held, id);
    assert s.calls[c].held != Some(id) ==> c !in Pending(s, id);
  }

  lemma QuietStepKeepsProbes(s: System, step: Step, id: nat, probes: set<nat>)
    requires ProbesPending(s, id, probes) && !step.Ask? && !step.Report? && Next(s, step) != s
    ensures ProbesPending(Next(s, step), id, NextProbes(s, step, id, probes))
  {
    var s' := Next(s, step);
    if id < |s.heap| {
      PendingAfterMove(s, s', step.c, None, id);
      assert step.c !in Pending(s, id);
    }
  }

  lemma StepKeepsProbes(s: System, step: Step, id: nat, probes: set<nat>)
    requires SystemInv(s) && ProbesPending(s, id, probes)
    ensures ProbesPending(Next(s, step), id, NextProbes(s, step, id, probes))
  {
    if Next(s, step) != s {
      if step.Ask? {
        assert CallOk(s.heap, s.calls[step.c]);
        if Admits(s, step, id) {
          AdmissionKeepsProbes(s, step.c, step.now, id, probes);
        } else if id < |s.heap| {
          OtherAskKeepsProbes(s, step.c, step.now, id, probes);
        }
      } else if step.Report? {
        if id < |s.heap| {
          ReportKeepsProbes(s, step.c, step.success, step.now, id, probes);
        }
      } else {
        QuietStepKeepsProbes(s, step, id, probes);
      }
    }
  }

  lemma {:induction false} EveryRunKeepsProbes(steps: seq<Step>, id: nat)
    ensures ProbesPending(Run(StartSystem, steps), id, Probes(steps, id))
  {
    if steps == [] {
    } else {
      var before := steps[..|steps| - 1];
      EveryRunKeepsProbes(before, id);
      EveryRunKeeps(before);
      StepKeepsProbes(Run(StartSystem, before), steps[|steps| - 1], id, Probes(before, id));
    }
  }

  lemma {:induction false} SameSize(a: set<nat>, b: set<nat>)
    requires a <= b && |a| == |b|
    ensures a == b
  {
    if a == {} {
    } else {
      var c :| c in a;
      SameSize(a - {c}, b - {c});
    }
  }

  /** Whose report decides a half-open breaker: that of any pending call, and it is certain to be a probe's if and only
      if no call admitted before the breaker opened is still to report, that is, if no more calls are pending than the
      breaker counts probes. */
  lemma DeciderIsProbeExactlyWhenNoneIsLate(steps: seq<Step>, id: nat)
    requires IsHalfOpen(Run(StartSystem, steps), id)
    ensures var s := Run(StartSystem, steps);
            && Probes(steps, id) <= Pending(s, id)
            && (Pending(s, id) <= Probes(steps, id) <==> |Pending(s, id)| == s.heap[id].halfOpenRequests)
  {
    EveryRunKeepsProbes(steps, id);
    var s := Run(StartSystem, steps);
    if |Pending(s, id)| == s.heap[id].halfOpenRequests {
      SameSize(Probes(steps, id), Pending(s, id));
    }
    if Pending(s, id) <= Probes(steps, id) {
      assert Pending(s, id) == Probes(steps, id);
    }
  }

  // ---- A late report that decides ----

  const QuickBreaking := Breaking(true, 1, 1.0, 10.0, 1)

  const QuickPolicy := Governance(Authorization(false, "", [], false), Timeouts(30.0, 0.0),
                                  RateLimit(false, 0, 0, "tool"), QuickBreaking, Fallback("mcp_error", "", "", ""))

  const QuickRequest := Request(true, "key", "key", QuickPolicy)

  /** A call of the quick policy that has found the breaker of its key. */
  predicate HasFound(s: System, c: nat) {
    c in s.calls && s.calls[c] == Found(QuickRequest, 0)
  }

  /** The key's breaker is number 0, as good as new. */
  predicate Ready(s: System) {
    s.heap == [NewBreaker(BreakerPolicy(QuickBreaking))] && s.registry == map["key" := 0]
  }

  function Entering(c: nat): seq<Step> {
    [Arrive(c, QuickRequest), CheckRate(c, 0.0), FindBreaker(c)]
  }

  lemma RunOfThree(s: System, a: Step, b: Step, c: Step)
    ensures Run(s, [a, b, c]) == Next(Next(Next(s, a), b), c)
  {
    RunSnoc(s, [], a);
    RunSnoc(s, [a], b);
    RunSnoc(s, [a, b], c);
    assert [] + [a] == [a] && [a] + [b] == [a, b] && [a, b] + [c] == [a, b, c];
  }

  lemma Arriving(s: System, c: nat)
    requires c !in s.calls
    ensures Next(s, Arrive(c, QuickRequest)) == WithCall(s, c, Arrived(QuickRequest))
  {
    DefaultsSettle(QuickPolicy);
  }

  lemma Passing(s: System, c: nat)
    requires c in s.calls && s.calls[c] == Arrived(QuickRequest)
    ensures Next(s, CheckRate(c, 0.0)) == WithCall(s, c, RatePassed(QuickRequest))
  {
  }

  lemma Finding(s: System, c: nat)
    requires c in s.calls && s.calls[c] == RatePassed(QuickRequest)
    requires Ready(s) || (s.heap == [] && s.registry == map[])
    ensures var s' := Next(s, FindBreaker(c)); Ready(s') && s'.calls == s.calls[c := Found(QuickRequest, 0)]
  {
  }

  lemma EnteringFinds(s: System, c: nat)
    requires c !in s.calls && (Ready(s) || (s.heap == [] && s.registry == map[]))
    ensures Ready(Run(s, Entering(c))) && Run(s, Entering(c)).calls == s.calls[c := Found(QuickRequest, 0)]
  {
    RunOfThree(s, Arrive(c, QuickRequest), CheckRate(c, 0.0), FindBreaker(c));
    var arrived := WithCall(s, c, Arrived(QuickRequest));
    var passed := WithCall(arrived, c, RatePassed(QuickRequest));
    Arriving(s, c);
    Passing(arrived, c);
    Finding(passed, c);
    assert passed.calls[c := Found(QuickRequest, 0)] == s.calls[c := Found(QuickRequest, 0)];
  }

  lemma ThreeEnter() returns (steps: seq<Step>)
    ensures var s := Run(StartSystem, steps); Ready(s) && HasFound(s, 0) && HasFound(s, 1) && HasFound(s, 2)
  {
    var a, b := Entering(0), Entering(0) + Entering(1);
    EnteringFinds(StartSystem, 0);
    RunConcat(StartSystem, a, Entering(1));
    EnteringFinds(Run(StartSystem, a), 1);
    RunConcat(StartSystem, b, Entering(2));
    EnteringFinds(Run(StartSystem, b), 2);
    steps := b + Entering(2);
  }

  /** Calls 0 and 1 are let through, 1 fails and the breaker opens. */
  function OpeningSteps(): seq<Step> {
    [Ask(0, 0.0), Ask(1, 0.0), Report(1, false, 0.0)]
  }

  lemma OpeningOpens(s: System)
    requires Ready(s) && HasFound(s, 0) && HasFound(s, 1) && HasFound(s, 2)
    ensures var s' := Run(s, OpeningSteps());
            && s'.heap == [Opened(NewBreaker(BreakerPolicy(QuickBreaking)), 0.0)]
            && 0 in s'.calls && s'.calls[0] == Invoking(QuickRequest, Some(0)) && HasFound(s', 2)
  {
    RunOfThree(s, Ask(0, 0.0), Ask(1, 0.0), Report(1, false, 0.0));
    var s1 := Next(s, Ask(0, 0.0));
    assert s1.heap == s.heap && s1.calls == s.calls[0 := Invoking(QuickRequest, Some(0))];
    var s2 := Next(s1, Ask(1, 0.0));
    assert s2.heap == s.heap && s2.calls == s1.calls[1 := Invoking(QuickRequest, Some(0))];
  }

  /** Ten seconds later call 2 is let through as the probe; then the report of the old call 0 closes the breaker. */
  lemma OldCallCloses(s: System)
    requires s.heap == [Opened(NewBreaker(BreakerPolicy(QuickBreaking)), 0.0)]
    requires 0 in s.calls && s.calls[0] == Invoking(QuickRequest, Some(0)) && HasFound(s, 2)
    ensures Admits(s, Ask(2, 10.0), 0) && !IsHalfOpen(s, 0)
    ensures var s1 := Next(s, Ask(2, 10.0));
            var s2 := Next(s1, Report(0, true, 10.0));
            && IsHalfOpen(s1, 0) && 0 in Pending(s1, 0) && 2 in Pending(s1, 0)
            && s2.heap[0].mode == Closed && 2 in Pending(s2, 0)
  {
  }

  /** A call that turns an open breaker half-open is its only probe. */
  lemma FirstProbeIsOnlyProbe(steps: seq<Step>, step: Step, id: nat)
    requires var s := Run(StartSystem, steps); Admits(s, step, id) && !IsHalfOpen(s, id)
    requires IsHalfOpen(Next(Run(StartSystem, steps), step), id)
    ensures Probes(steps + [step], id) == {step.c}
  {
    assert (steps + [step])[..|steps|] == steps;
  }

  /** A reachable state in which a call admitted before the breaker opened closes it while the probe is still out. */
  lemma LateReportCloses() returns (steps: seq<Step>)
    ensures var s := Run(StartSystem, steps);
            var s' := Next(s, Report(0, true, 10.0));
            && IsHalfOpen(s, 0) && Probes(steps, 0) == {2} && 0 in Pending(s, 0)
            && s'.heap[0].mode == Closed && 2 in Pending(s', 0)
  {
    var entered := ThreeEnter();
    RunConcat(StartSystem, entered, OpeningSteps());
    OpeningOpens(Run(StartSystem, entered));
    var shut := entered + OpeningSteps();
    OldCallCloses(Run(StartSystem, shut));
    FirstProbeIsOnlyProbe(shut, Ask(2, 10.0), 0);
    RunSnoc(StartSystem, shut, Ask(2, 10.0));
    steps := shut + [Ask(2, 10.0)];
  }
}
