/** The three-state circuit breaker (internal/core/governance/circuitbreaker.go) and what its history says about it.
    Times and error rates are reals. */
module CircuitBreakers {

  datatype Policy = Policy(minRequests: int, errorRate: real, openDuration: real, halfOpenMax: int)

  datatype Mode = Closed | Open | HalfOpen

  datatype Breaker = Breaker(policy: Policy, mode: Mode, openedUntil: real, requests: nat, failures: nat,
                             halfOpenRequests: nat)

  /** The zero time. */
  const NEVER := 0.0

  function NewBreaker(p: Policy): Breaker {
    Breaker(p, Closed, NEVER, 0, 0, 0)
  }

  function Opened(b: Breaker, now: real): Breaker {
    Breaker(b.policy, Open, now + b.policy.openDuration, 0, 0, 0)
  }

  /** Asking for admission: the breaker afterwards, and whether the call is admitted. */
  function Before(b: Breaker, now: real): (Breaker, bool) {
    if b.mode == Open && now < b.openedUntil then (b, false)
    else
      var b' := if b.mode == Open then b.(mode := HalfOpen, halfOpenRequests := 0) else b;
      if b'.mode == HalfOpen then
        if b'.halfOpenRequests >= b'.policy.halfOpenMax then (b', false)
        else (b'.(halfOpenRequests := b'.halfOpenRequests + 1), true)
      else (b', true)
  }

  predicate Trips(p: Policy, requests: nat, failures: nat) {
    requests > 0 && requests >= p.minRequests && failures as real / requests as real >= p.errorRate
  }

  /** Reporting the outcome of an admitted call. */
  function After(b: Breaker, success: bool, now: real): Breaker {
    match b.mode
    case HalfOpen => if success then NewBreaker(b.policy) else Opened(b, now)
    case Open => b
    case Closed =>
      var b' := b.(requests := b.requests + 1, failures := b.failures + if success then 0 else 1);
      if Trips(b.policy, b'.requests, b'.failures) then Opened(b', now) else b'
  }

  class CircuitBreaker {
    const policy: Policy
    var mode: Mode
    var openedUntil: real
    var requests: nat
    var failures: nat
    var halfOpenRequests: nat

    constructor (p: Policy)
      ensures Value() == NewBreaker(p)
    {
      policy := p;
      mode, openedUntil, requests, failures, halfOpenRequests := Closed, NEVER, 0, 0, 0;
    }

    function Value(): Breaker
      reads this
    {
      Breaker(policy, mode, openedUntil, requests, failures, halfOpenRequests)
    }

    method TryBefore(now: real) returns (ok: bool)
      modifies this
      ensures (Value(), ok) == Before(old(Value()), now)
    {
      if mode == Open {
        if now < openedUntil {
          return false;
        }
        mode := HalfOpen;
        halfOpenRequests := 0;
      }
      if mode == HalfOpen {
        if halfOpenRequests >= policy.halfOpenMax {
          return false;
        }
        halfOpenRequests := halfOpenRequests + 1;
      }
      ok := true;
    }

    method ReportAfter(success: bool, now: real)
      modifies this
      ensures Value() == After(old(Value()), success, now)
    {
      if mode == HalfOpen {
        if success {
          CloseNow();
          return;
        }
        OpenNow(now);
        return;
      }
      if mode == Open {
        return;
      }
      requests := requests + 1;
      if !success {
        failures := failures + 1;
      }
      if requests < policy.minRequests {
        return;
      }
      var errorRate := failures as real / requests as real;
      if errorRate >= policy.errorRate {
        OpenNow(now);
      }
    }

    method OpenNow(now: real)
      modifies this
      ensures Value() == Opened(old(Value()), now)
    {
      mode, openedUntil, requests, failures, halfOpenRequests := Open, now + policy.openDuration, 0, 0, 0;
    }

    method CloseNow()
      modifies this
      ensures Value() == NewBreaker(policy)
    {
      mode, openedUntil, requests, failures, halfOpenRequests := Closed, NEVER, 0, 0, 0;
    }
  }

  // ---- Histories ----

  /** What a breaker is told: a call asks, or an admitted call reports. */
  datatype Event = Asked(at: real) | Reported(success: bool, at: real)

  function Tell(b: Breaker, e: Event): Breaker {
    match e
    case Asked(at) => Before(b, at).0
    case Reported(success, at) => After(b, success, at)
  }

  /** A lone breaker after a history. */
  function Replay(p: Policy, h: seq<Event>): (b: Breaker)
    ensures b.policy == p
  {
    if h == [] then NewBreaker(p) else Tell(Replay(p, h[..|h| - 1]), h[|h| - 1])
  }

  predicate IsClosed(p: Policy, h: seq<Event>) {
    Replay(p, h).mode == Closed
  }

  /** The number of reports among the events from..|h|-1, and of the failed ones. */
  function Reports(h: seq<Event>, from: nat): nat
    requires from <= |h|
    decreases |h| - from
  {
    if from == |h| then 0 else (if h[from].Reported? then 1 else 0) + Reports(h, from + 1)
  }

  function FailedReports(h: seq<Event>, from: nat): nat
    requires from <= |h|
    decreases |h| - from
  {
    if from == |h| then 0 else (if h[from].Reported? && !h[from].success then 1 else 0) + FailedReports(h, from + 1)
  }

  lemma {:induction false} ReportsSnoc(h: seq<Event>, e: Event, from: nat)
    requires from <= |h|
    ensures Reports(h + [e], from) == Reports(h, from) + if e.Reported? then 1 else 0
    ensures FailedReports(h + [e], from) == FailedReports(h, from) + if e.Reported? && !e.success then 1 else 0
    decreases |h| - from
  {
    if from < |h| {
      ReportsSnoc(h, e, from + 1);
    }
  }

  lemma ReplaySnoc(p: Policy, h: seq<Event>, e: Event)
    ensures Replay(p, h + [e]) == Tell(Replay(p, h), e)
  {
    assert (h + [e])[..|h|] == h;
  }

  /** The breaker has been closed at every point from `since` on, and was not closed just before. */
  ghost predicate ClosedSince(p: Policy, h: seq<Event>, since: nat) {
    && since <= |h|
    && (forall j :: since <= j <= |h| ==> IsClosed(p, h[..j]))
    && (since > 0 ==> !IsClosed(p, h[..since - 1]))
  }

  /** A closed breaker's counters are the counts of the reports received since it last became closed. */
  lemma {:induction false} ClosedCountersAreCounts(p: Policy, h: seq<Event>, since: nat)
    requires ClosedSince(p, h, since)
    ensures Replay(p, h).requests == Reports(h, since)
    ensures Replay(p, h).failures == FailedReports(h, since)
    ensures FailedReports(h, since) <= Reports(h, since)
  {
    assert h[..|h|] == h;
    if since == |h| {
      if since > 0 {
        var before := h[..since - 1];
        assert h == before + [h[since - 1]];
        ReplaySnoc(p, before, h[since - 1]);
        assert IsClosed(p, h[..since]);
      }
    } else {
      var n := |h| - 1;
      var before := h[..n];
      assert h == before + [h[n]];
      assert forall j :: 0 <= j <= n ==> before[..j] == h[..j];
      ClosedCountersAreCounts(p, before, since);
      ReplaySnoc(p, before, h[n]);
      ReportsSnoc(before, h[n], since);
      assert IsClosed(p, h[..n]) && IsClosed(p, h[..|h|]);
    }
  }

  /** The point since which a breaker that is closed now has been closed. */
  lemma {:induction false} ClosedSinceExists(p: Policy, h: seq<Event>) returns (since: nat)
    requires IsClosed(p, h)
    ensures ClosedSince(p, h, since)
  {
    assert h[..|h|] == h;
    if h == [] {
      since := 0;
    } else {
      var n := |h| - 1;
      if IsClosed(p, h[..n]) {
        since := ClosedSinceExists(p, h[..n]);
        assert forall j :: 0 <= j <= n ==> h[..n][..j] == h[..j];
        forall j | since <= j <= |h| ensures IsClosed(p, h[..j]) {
          if j <= n {
            assert IsClosed(p, h[..n][..j]);
          }
        }
      } else {
        since := |h|;
      }
    }
  }

  /** A closed breaker opens exactly at the first report that brings the number of reports since it became closed to
      the minimum and the failed share of them to the error rate. */
  lemma OpensExactlyWhenCountsTrip(p: Policy, h: seq<Event>, since: nat, e: Event)
    requires ClosedSince(p, h, since)
    ensures var reports, failed := Reports(h + [e], since), FailedReports(h + [e], since);
            Replay(p, h + [e]).mode == Open <==>
              && e.Reported?
              && reports > 0 && reports >= p.minRequests
              && failed as real / reports as real >= p.errorRate
    ensures Replay(p, h + [e]).mode != HalfOpen
    ensures Replay(p, h + [e]).mode == Open ==> Replay(p, h + [e]).openedUntil == e.at + p.openDuration
  {
    assert h[..|h|] == h;
    assert IsClosed(p, h[..|h|]);
    ClosedCountersAreCounts(p, h, since);
    ReplaySnoc(p, h, e);
    ReportsSnoc(h, e, since);
  }

  ghost predicate InTimeOrder(h: seq<Event>) {
    forall i, j :: 0 <= i < j < |h| ==> h[i].at <= h[j].at
  }

  /** Event i opens the breaker. */
  ghost predicate OpensAt(p: Policy, h: seq<Event>, i: nat) {
    i < |h| && Replay(p, h[..i]).mode != Open && Replay(p, h[..i + 1]).mode == Open
  }

  lemma {:induction false} StaysOpen(p: Policy, h: seq<Event>, i: nat, k: nat)
    requires InTimeOrder(h) && OpensAt(p, h, i) && i < k <= |h|
    requires forall j :: i < j < k ==> h[j].at < h[i].at + p.openDuration
    ensures Replay(p, h[..k]) == Replay(p, h[..i + 1])
    ensures Replay(p, h[..k]).openedUntil == h[i].at + p.openDuration
  {
    if k == i + 1 {
      assert h[..k][..i] == h[..i];
    } else {
      StaysOpen(p, h, i, k - 1);
      assert h[..k][..k - 1] == h[..k - 1];
    }
  }

  /** Once opened at time t, the breaker admits nothing earlier than t + openDuration, whatever is reported
      meanwhile. */
  lemma NoAdmissionWhileOpen(p: Policy, h: seq<Event>, i: nat, k: nat)
    requires InTimeOrder(h) && OpensAt(p, h, i) && i < k < |h|
    requires h[k].Asked? && h[k].at < h[i].at + p.openDuration
    ensures !Before(Replay(p, h[..k]), h[k].at).1
  {
    StaysOpen(p, h, i, k);
  }

  /** ... and the first call to ask from then on is admitted as a probe. */
  lemma ProbeAfterOpenDuration(p: Policy, h: seq<Event>, i: nat, k: nat)
    requires InTimeOrder(h) && OpensAt(p, h, i) && i < k < |h| && p.halfOpenMax > 0
    requires forall j :: i < j < k ==> h[j].at < h[i].at + p.openDuration
    requires h[k].Asked? && h[k].at >= h[i].at + p.openDuration
    ensures Before(Replay(p, h[..k]), h[k].at).1
    ensures Replay(p, h[..k + 1]).mode == HalfOpen
  {
    StaysOpen(p, h, i, k);
    assert h[..k + 1][..k] == h[..k];
  }

  // ---- Verdicts ----

  /** A closed breaker admits every call, whatever it has heard and whenever the call asks, and is left as it was. */
  lemma ClosedAdmitsAll(p: Policy, h: seq<Event>, at: real)
    requires IsClosed(p, h)
    ensures Before(Replay(p, h), at).1
    ensures Replay(p, h + [Asked(at)]) == Replay(p, h)
  {
    ReplaySnoc(p, h, Asked(at));
  }

  /** An open breaker admits a call exactly from the end of its open duration on. */
  lemma OpenAdmitsFromEnd(p: Policy, h: seq<Event>, at: real)
    requires Replay(p, h).mode == Open && p.halfOpenMax > 0
    ensures Before(Replay(p, h), at).1 <==> at >= Replay(p, h).openedUntil
    ensures Replay(p, h + [Asked(at)]).mode == if at >= Replay(p, h).openedUntil then HalfOpen else Open
  {
    ReplaySnoc(p, h, Asked(at));
  }

  /** Event j is a call that asks and is admitted. */
  predicate AdmittedAt(p: Policy, h: seq<Event>, j: nat)
    requires j < |h|
  {
    h[j].Asked? && Before(Replay(p, h[..j]), h[j].at).1
  }

  /** How many calls were admitted among the events from..|h|-1. */
  function Admissions(p: Policy, h: seq<Event>, from: nat): nat {
    if |h| <= from then 0
    else Admissions(p, h[..|h| - 1], from) + if AdmittedAt(p, h, |h| - 1) then 1 else 0
  }

  /** The breaker has been half-open at every point from `since` on, and was not just before. */
  ghost predicate HalfOpenSince(p: Policy, h: seq<Event>, since: nat) {
    && 0 < since <= |h|
    && (forall j :: since <= j <= |h| ==> Replay(p, h[..j]).mode == HalfOpen)
    && Replay(p, h[..since - 1]).mode != HalfOpen
  }

  lemma {:induction false} HalfOpenSinceExists(p: Policy, h: seq<Event>) returns (since: nat)
    requires Replay(p, h).mode == HalfOpen
    ensures HalfOpenSince(p, h, since)
  {
    assert h[..|h|] == h;
    var before := h[..|h| - 1];
    if Replay(p, before).mode == HalfOpen {
      since := HalfOpenSinceExists(p, before);
      assert forall j :: 0 <= j <= |before| ==> before[..j] == h[..j];
      assert forall j :: since <= j <= |before| ==> Replay(p, before[..j]).mode == HalfOpen;
    } else {
      since := |h|;
    }
  }

  lemma {:induction false} HalfOpenCounterCountsAdmissions(p: Policy, h: seq<Event>, since: nat)
    requires HalfOpenSince(p, h, since)
    ensures Replay(p, h).halfOpenRequests == Admissions(p, h, since - 1)
  {
    var n := |h| - 1;
    var before := h[..n];
    assert h[..|h|] == h && h == before + [h[n]];
    assert Replay(p, h[..|h|]).mode == HalfOpen;
    ReplaySnoc(p, before, h[n]);
    if since == |h| {
      assert Admissions(p, before, n) == 0;
    } else {
      assert forall j :: 0 <= j <= n ==> before[..j] == h[..j];
      assert forall j :: since <= j <= n ==> Replay(p, before[..j]).mode == HalfOpen;
      HalfOpenCounterCountsAdmissions(p, before, since);
      assert Replay(p, h[..n]).mode == HalfOpen;
    }
  }

  /** A half-open breaker admits a call exactly when it admitted fewer than the maximum since it became half-open,
      the call that made it so included. */
  lemma HalfOpenAdmitsUpToMax(p: Policy, h: seq<Event>, since: nat, at: real)
    requires HalfOpenSince(p, h, since)
    ensures Before(Replay(p, h), at).1 <==> Admissions(p, h, since - 1) < p.halfOpenMax
    ensures Replay(p, h + [Asked(at)]).mode == HalfOpen
  {
    HalfOpenCounterCountsAdmissions(p, h, since);
    assert h[..|h|] == h && Replay(p, h[..|h|]).mode == HalfOpen;
    ReplaySnoc(p, h, Asked(at));
  }

  /** The first report to a half-open breaker decides: closed on success, otherwise open for the open duration. */
  lemma HalfOpenDecides(p: Policy, h: seq<Event>, success: bool, at: real)
    requires Replay(p, h).mode == HalfOpen
    ensures var b := Replay(p, h + [Reported(success, at)]);
            && (success ==> b.mode == Closed && ClosedSince(p, h + [Reported(success, at)], |h| + 1))
            && (!success ==> b.mode == Open && b.openedUntil == at + p.openDuration)
  {
    ReplaySnoc(p, h, Reported(success, at));
    var all := h + [Reported(success, at)];
    assert all[..|h|] == h && all[..|all|] == all;
  }
}
