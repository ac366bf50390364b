/** Merging governance policies and filling in defaults (internal/core/governance/runtime.go). */
module GovernancePolicy {

  datatype Authorization = Authorization(enabled: bool, mode: string, rules: seq<string>, allowByDefault: bool)

  datatype Timeouts = Timeouts(request: real, connect: real)

  datatype RateLimit = RateLimit(enabled: bool, qps: int, burst: int, dimension: string)

  datatype Breaking = Breaking(enabled: bool, minRequests: int, errorRate: real, openDuration: real, halfOpenMax: int)

  datatype Fallback = Fallback(mode: string, message: string, staticText: string, serviceName: string)

  datatype Governance = Governance(authorization: Authorization, timeouts: Timeouts, rate: RateLimit,
                                   breaking: Breaking, fallback: Fallback)

  function ApplyDefaults(g: Governance): Governance {
    var t, r, b, f := g.timeouts, g.rate, g.breaking, g.fallback;
    Governance(
      g.authorization,
      t.(request := if t.request <= 0.0 then 30.0 else t.request),
      r.(burst := if r.burst <= 0 && r.qps > 0 then r.qps else r.burst,
         dimension := if r.dimension == "" then "tenant_tool" else r.dimension),
      b.(minRequests := if b.minRequests <= 0 then 20 else b.minRequests,
         errorRate := if b.errorRate <= 0.0 then 0.5 else b.errorRate,
         openDuration := if b.openDuration <= 0.0 then 30.0 else b.openDuration,
         halfOpenMax := if b.halfOpenMax <= 0 then 1 else b.halfOpenMax),
      f.(mode := if f.mode == "" then "mcp_error" else f.mode))
  }

  predicate SetsAuthorization(a: Authorization) {
    a.enabled || a.mode != "" || a.rules != [] || a.allowByDefault
  }

  predicate SetsRate(r: RateLimit) {
    r.enabled || r.qps > 0 || r.burst > 0 || r.dimension != ""
  }

  predicate SetsBreaking(b: Breaking) {
    b.enabled || b.minRequests > 0 || b.errorRate > 0.0 || b.openDuration > 0.0 || b.halfOpenMax > 0
  }

  predicate SetsFallback(f: Fallback) {
    f.mode != "" || f.message != "" || f.staticText != "" || f.serviceName != ""
  }

  /** A server's own policy replaces the global one section by section, timeouts field by field. */
  function MergePolicy(general: Governance, own: Governance): Governance {
    ApplyDefaults(Governance(
      if SetsAuthorization(own.authorization) then own.authorization else general.authorization,
      Timeouts(if own.timeouts.request > 0.0 then own.timeouts.request else general.timeouts.request,
               if own.timeouts.connect > 0.0 then own.timeouts.connect else general.timeouts.connect),
      if SetsRate(own.rate) then own.rate else general.rate,
      if SetsBreaking(own.breaking) then own.breaking else general.breaking,
      if SetsFallback(own.fallback) then own.fallback else general.fallback))
  }

  /** What the limiter and the breaker rely on. */
  ghost predicate Usable(g: Governance) {
    && g.timeouts.request > 0.0
    && (g.rate.qps > 0 ==> g.rate.burst > 0)
    && g.breaking.minRequests >= 1 && g.breaking.errorRate > 0.0 && g.breaking.openDuration > 0.0
    && g.breaking.halfOpenMax >= 1
    && g.fallback.mode != ""
  }

  /** Every policy is usable once defaults are filled in, and filling them in again (as Invoke does with a merged
      policy) changes nothing. */
  lemma DefaultsSettle(g: Governance)
    ensures Usable(ApplyDefaults(g))
    ensures ApplyDefaults(ApplyDefaults(g)) == ApplyDefaults(g)
    ensures ApplyDefaults(g) == g <==> Usable(g) && g.rate.dimension != ""
  {
    var d := ApplyDefaults(g);
    if Usable(g) && g.rate.dimension != "" {
      assert d.timeouts == g.timeouts && d.rate == g.rate && d.breaking == g.breaking && d.fallback == g.fallback;
    }
    assert ApplyDefaults(d).timeouts == d.timeouts && ApplyDefaults(d).rate == d.rate;
    assert ApplyDefaults(d).breaking == d.breaking && ApplyDefaults(d).fallback == d.fallback;
  }

  /** A merged policy can be merged again: no other global policy changes its limits, breaker, fallback or request
      timeout, and it changes nothing at all if and only if it agrees with the merged policy on what that leaves
      unset. */
  lemma MergedPolicyIsSettled(general: Governance, own: Governance, other: Governance)
    ensures var m := MergePolicy(general, own);
            var again := MergePolicy(other, m);
            && again.rate == m.rate && again.breaking == m.breaking && again.fallback == m.fallback
            && again.timeouts.request == m.timeouts.request
            && (again == m <==>
                  && (SetsAuthorization(m.authorization) || other.authorization == m.authorization)
                  && (m.timeouts.connect > 0.0 || other.timeouts.connect == m.timeouts.connect))
  {
    var m := MergePolicy(general, own);
    var again := MergePolicy(other, m);
    DefaultsSettle(Governance(again.authorization, again.timeouts, m.rate, m.breaking, m.fallback));
    assert again.timeouts == m.timeouts <==> again.timeouts.connect == m.timeouts.connect;
  }

  /** A section a server's own policy leaves unset is the global one's, and one it sets is its own; only then are
      defaults filled in. */
  lemma SectionsAreInherited(general: Governance, own: Governance)
    ensures var m := MergePolicy(general, own);
            && (own.authorization == Authorization(false, "", [], false) ==> m.authorization == general.authorization)
            && (own.authorization != Authorization(false, "", [], false) ==> m.authorization == own.authorization)
            && (own.timeouts.connect <= 0.0 ==> m.timeouts.connect == general.timeouts.connect)
            && (own.timeouts.connect > 0.0 ==> m.timeouts.connect == own.timeouts.connect)
            && (own.timeouts.request > 0.0 ==> m.timeouts.request == own.timeouts.request)
            && (own.timeouts.request <= 0.0 && general.timeouts.request > 0.0 ==>
                  m.timeouts.request == general.timeouts.request)
    ensures var m, r := MergePolicy(general, own).rate, own.rate;
            var given := r.enabled || r.qps > 0 || r.burst > 0 || r.dimension != "";
            && (!given ==> m == ApplyDefaults(general).rate)
            && (given ==> m == ApplyDefaults(own).rate)
    ensures var m, b := MergePolicy(general, own).breaking, own.breaking;
            var given := b.enabled || b.minRequests > 0 || b.errorRate > 0.0 || b.openDuration > 0.0
                         || b.halfOpenMax > 0;
            && (!given ==> m == ApplyDefaults(general).breaking)
            && (given ==> m == ApplyDefaults(own).breaking)
    ensures var m, f := MergePolicy(general, own).fallback, own.fallback;
            && (f == Fallback("", "", "", "") ==> m == ApplyDefaults(general).fallback)
            && (f != Fallback("", "", "", "") ==> m == ApplyDefaults(own).fallback)
  {
  }

  /** The defaults: 30 seconds for a request, a burst of one second's calls, a bucket for each tenant and tool, 20
      requests, half of them failing, 30 seconds open, one probe, and an MCP error as fallback. What is set stays. */
  lemma DefaultValues(g: Governance)
    ensures var d := ApplyDefaults(g);
            && d.authorization == g.authorization && d.timeouts.connect == g.timeouts.connect
            && d.timeouts.request == (if g.timeouts.request > 0.0 then g.timeouts.request else 30.0)
            && d.rate.enabled == g.rate.enabled && d.rate.qps == g.rate.qps
            && (g.rate.burst > 0 || g.rate.qps <= 0 ==> d.rate.burst == g.rate.burst)
            && (g.rate.burst <= 0 && g.rate.qps > 0 ==> d.rate.burst == g.rate.qps)
            && d.rate.dimension == (if g.rate.dimension != "" then g.rate.dimension else "tenant_tool")
    ensures var d, b := ApplyDefaults(g).breaking, g.breaking;
            && d.enabled == b.enabled
            && d.minRequests == (if b.minRequests > 0 then b.minRequests else 20)
            && d.errorRate == (if b.errorRate > 0.0 then b.errorRate else 0.5)
            && d.openDuration == (if b.openDuration > 0.0 then b.openDuration else 30.0)
            && d.halfOpenMax == (if b.halfOpenMax > 0 then b.halfOpenMax else 1)
    ensures ApplyDefaults(g).fallback ==
              if g.fallback.mode != "" then g.fallback else g.fallback.(mode := "mcp_error")
  {
  }
}
