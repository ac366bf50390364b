/** The token bucket is the sliding-window rule (internal/core/governance/ratelimit.go).
    Times and tokens are reals; a bucket's clock only moves forward, so request times count as a running maximum. */
module TokenBuckets {

  datatype Bucket = Bucket(qps: nat, burst: int, tokens: real, last: real)

  function NewBucket(qps: nat, burst: int, now: real): Bucket {
    var b := if burst <= 0 then qps else burst;
    Bucket(qps, b, b as real, now)
  }

  /** What a bucket gains in `t` seconds: qps * t (EarnedIsProduct), written as repeated addition. */
  function Earned(qps: nat, t: real): real {
    if qps == 0 then 0.0 else Earned(qps - 1, t) + t
  }

  lemma {:induction false} EarnedIsProduct(qps: nat, t: real)
    ensures Earned(qps, t) == t * qps as real
  {
    if qps == 0 {
    } else {
      EarnedIsProduct(qps - 1, t);
      var fewer := (qps - 1) as real;
      assert qps as real == fewer + 1.0;
      assert t * (fewer + 1.0) == t * fewer + t;
    }
  }

  function Refill(b: Bucket, now: real): Bucket {
    var elapsed := now - b.last;
    if elapsed > 0.0 then
      var t := b.tokens + Earned(b.qps, elapsed);
      b.(tokens := if t > b.burst as real then b.burst as real else t, last := now)
    else b
  }

  /** One request: the bucket afterwards, and whether the request was admitted. */
  function Take(b: Bucket, now: real): (Bucket, bool) {
    var r := Refill(b, now);
    if r.tokens < 1.0 then (r, false) else (r.(tokens := r.tokens - 1.0), true)
  }

  class TokenBucket {
    const qps: nat
    const burst: int
    var tokens: real
    var last: real

    constructor (qps: nat, burst: int, now: real)
      ensures Value() == NewBucket(qps, burst, now)
    {
      var b := if burst <= 0 then qps else burst;
      this.qps := qps;
      this.burst := b;
      tokens := b as real;
      last := now;
    }

    function Value(): Bucket
      reads this
    {
      Bucket(qps, burst, tokens, last)
    }

    method Allow(now: real) returns (ok: bool)
      modifies this
      ensures (Value(), ok) == Take(old(Value()), now)
    {
      var elapsed := now - last;
      if elapsed > 0.0 {
        EarnedIsProduct(qps, elapsed);
        tokens := tokens + elapsed * qps as real;
        if tokens > burst as real {
          tokens := burst as real;
        }
        last := now;
      }
      assert Value() == Refill(old(Value()), now);
      if tokens < 1.0 {
        return false;
      }
      tokens := tokens - 1.0;
      ok := true;
    }
  }

  // ---- Runs of requests ----

  function AfterRequests(b: Bucket, times: seq<real>): Bucket {
    if times == [] then b else Take(AfterRequests(b, times[..|times| - 1]), times[|times| - 1]).0
  }

  /** Whether request k is admitted. */
  predicate Admits(b: Bucket, times: seq<real>, k: nat)
    requires k < |times|
  {
    Take(AfterRequests(b, times[..k]), times[k]).1
  }

  /** How many of the requests from..upto-1 are admitted. */
  function Admitted(b: Bucket, times: seq<real>, from: nat, upto: nat): (n: nat)
    requires from <= upto <= |times|
    ensures n <= upto - from
  {
    if from == upto then 0
    else Admitted(b, times, from, upto - 1) + if Admits(b, times, upto - 1) then 1 else 0
  }

  function RunningMax(start: real, times: seq<real>): real {
    if times == [] then start
    else
      var m := RunningMax(start, times[..|times| - 1]);
      if times[|times| - 1] > m then times[|times| - 1] else m
  }

  /** The time of request k, as the bucket sees it. */
  function TimeOf(b: Bucket, times: seq<real>, k: nat): real
    requires k < |times|
  {
    RunningMax(b.last, times[..k + 1])
  }

  // ---- The window levels ----

  /** Anchor 0 is the bucket's creation, anchor j + 1 is request j. */
  function AnchorTime(b: Bucket, times: seq<real>, a: nat): real
    requires a <= |times|
  {
    RunningMax(b.last, times[..a])
  }

  function FirstAfter(a: nat): nat {
    if a == 0 then 0 else a - 1
  }

  /** What the window opened at anchor `a` still allows at time `t`, after the first k requests. */
  ghost function Level(b: Bucket, times: seq<real>, a: nat, k: nat, t: real): real
    requires a <= k + 1 && k <= |times| && a <= |times|
  {
    b.burst as real + Earned(b.qps, t) - Earned(b.qps, AnchorTime(b, times, a))
      - Admitted(b, times, FirstAfter(a), k) as real
  }

  lemma RefillByEarned(s: Bucket, now: real)
    requires s.qps > 0 && s.tokens <= s.burst as real
    ensures var r := Refill(s, now);
            var full := s.tokens + Earned(s.qps, r.last) - Earned(s.qps, s.last);
            && full >= s.tokens
            && r == s.(last := r.last, tokens := if full > s.burst as real then s.burst as real else full)
            && r.last == if now > s.last then now else s.last
  {
    EarnedOfDifference(s.qps, now, s.last);
    if now > s.last {
      EarnedGrows(s.qps, now - s.last);
    }
  }

  lemma {:induction false} EarnedGrows(qps: nat, t: real)
    requires t >= 0.0
    ensures Earned(qps, t) >= 0.0
  {
    if qps == 0 {
    } else {
      EarnedGrows(qps - 1, t);
    }
  }

  /** The tokens are the least level of all windows opened so far. */
  ghost predicate LeastLevel(b: Bucket, times: seq<real>, k: nat, tokens: real, upto: nat, t: real)
    requires k <= |times| && upto <= k + 1 && upto <= |times|
  {
    && (forall a :: 0 <= a <= upto ==> tokens <= Level(b, times, a, k, t))
    && (exists a :: 0 <= a <= upto && tokens == Level(b, times, a, k, t))
  }

  ghost predicate Fresh(b: Bucket) {
    b.qps > 0 && b.burst > 0 && b.tokens == b.burst as real
  }

  /** Refilling before request k: the window opened by request k itself joins the others. */
  lemma RefillIsLeastLevel(b: Bucket, times: seq<real>, k: nat, s: Bucket)
    requires Fresh(b) && k < |times|
    requires s == b.(tokens := s.tokens, last := AnchorTime(b, times, k)) && 0.0 <= s.tokens <= b.burst as real
    requires LeastLevel(b, times, k, s.tokens, k, s.last)
    ensures var r := Refill(s, times[k]);
            && r == s.(tokens := r.tokens, last := TimeOf(b, times, k))
            && 0.0 <= r.tokens <= b.burst as real
            && LeastLevel(b, times, k, r.tokens, k + 1, r.last)
  {
    var r := Refill(s, times[k]);
    RefillByEarned(s, times[k]);
    assert times[..k + 1][..k] == times[..k];
    assert r.last == TimeOf(b, times, k);
    var gain := Earned(b.qps, r.last) - Earned(b.qps, s.last);
    assert forall a :: 0 <= a <= k ==> Level(b, times, a, k, r.last) == Level(b, times, a, k, s.last) + gain;
    assert Level(b, times, k + 1, k, r.last) == b.burst as real;
    var least :| 0 <= least <= k && s.tokens == Level(b, times, least, k, s.last);
    assert r.tokens == Level(b, times, least, k, r.last) || r.tokens == Level(b, times, k + 1, k, r.last);
  }

  lemma AdmissionLowersLevel(b: Bucket, times: seq<real>, a: nat, k: nat, t: real)
    requires k < |times| && a <= k + 1
    ensures Level(b, times, a, k + 1, t) == Level(b, times, a, k, t) - if Admits(b, times, k) then 1.0 else 0.0
  {
    assert Admitted(b, times, FirstAfter(a), k + 1) ==
           Admitted(b, times, FirstAfter(a), k) + if Admits(b, times, k) then 1 else 0;
  }

  lemma AdmissionLowersLevels(b: Bucket, times: seq<real>, k: nat, t: real, before: real, after: real)
    requires k < |times| && LeastLevel(b, times, k, before, k + 1, t)
    requires after == before - if Admits(b, times, k) then 1.0 else 0.0
    ensures LeastLevel(b, times, k + 1, after, k + 1, t)
  {
    var least :| 0 <= least <= k + 1 && before == Level(b, times, least, k, t);
    AdmissionLowersLevel(b, times, least, k, t);
    var k' := k + 1;
    forall a | 0 <= a <= k' ensures after <= Level(b, times, a, k', t) {
      AdmissionLowersLevel(b, times, a, k, t);
    }
  }

  lemma {:induction false} LeastLevelInvariant(b: Bucket, times: seq<real>, k: nat)
    requires Fresh(b) && k <= |times|
    ensures var s := AfterRequests(b, times[..k]);
            && s == b.(tokens := s.tokens, last := AnchorTime(b, times, k))
            && 0.0 <= s.tokens <= b.burst as real
            && LeastLevel(b, times, k, s.tokens, k, s.last)
  {
    if k == 0 {
      assert Level(b, times, 0, 0, b.last) == b.tokens;
    } else {
      var s := AfterRequests(b, times[..k - 1]);
      LeastLevelInvariant(b, times, k - 1);
      assert times[..k][..k - 1] == times[..k - 1];
      RefillIsLeastLevel(b, times, k - 1, s);
      var r := Refill(s, times[k - 1]);
      AdmissionLowersLevels(b, times, k - 1, r.last, r.tokens, AfterRequests(b, times[..k]).tokens);
    }
  }

  /** The number admitted from request j on would still fit the window of length t_k - t_j if request k joined. */
  ghost predicate FitsWindow(b: Bucket, times: seq<real>, j: nat, k: nat)
    requires j <= k < |times|
  {
    Admitted(b, times, j, k) as real + 1.0 <=
      b.burst as real + Earned(b.qps, TimeOf(b, times, k) - TimeOf(b, times, j))
  }

  ghost predicate FitsSinceCreation(b: Bucket, times: seq<real>, k: nat)
    requires k < |times|
  {
    Admitted(b, times, 0, k) as real + 1.0 <= b.burst as real + Earned(b.qps, TimeOf(b, times, k) - b.last)
  }

  lemma {:induction false} EarnedOfDifference(qps: nat, t: real, u: real)
    ensures Earned(qps, t - u) == Earned(qps, t) - Earned(qps, u)
  {
    if qps == 0 {
    } else {
      EarnedOfDifference(qps - 1, t, u);
    }
  }

  lemma FitsIsLevel(b: Bucket, times: seq<real>, a: nat, k: nat)
    requires b.qps > 0 && a <= k + 1 && k < |times|
    ensures (if a == 0 then FitsSinceCreation(b, times, k) else FitsWindow(b, times, a - 1, k)) <==>
            1.0 <= Level(b, times, a, k, TimeOf(b, times, k))
  {
    EarnedOfDifference(b.qps, TimeOf(b, times, k), AnchorTime(b, times, a));
  }

  lemma LeastLevelDecides(b: Bucket, times: seq<real>, k: nat)
    requires Fresh(b) && k < |times|
    ensures Admits(b, times, k) <==> forall a :: 0 <= a <= k + 1 ==> 1.0 <= Level(b, times, a, k, TimeOf(b, times, k))
  {
    LeastLevelInvariant(b, times, k);
    RefillIsLeastLevel(b, times, k, AfterRequests(b, times[..k]));
  }

  /** The bucket is exactly the sliding-window rule: request k is admitted if and only if it fits the window opened
      by the bucket's creation and by every request up to itself. */
  lemma BucketIsSlidingWindow(qps: nat, burst: int, start: real, times: seq<real>, k: nat)
    requires qps > 0 && k < |times|
    ensures var b := NewBucket(qps, burst, start);
            && b.qps == qps && b.burst == (if burst > 0 then burst else qps) && b.last == start
            && (Admits(b, times, k) <==>
                  FitsSinceCreation(b, times, k) && forall j :: 0 <= j <= k ==> FitsWindow(b, times, j, k))
  {
    var b := NewBucket(qps, burst, start);
    LeastLevelDecides(b, times, k);
    FitsIsLevel(b, times, 0, k);
    forall j | 0 <= j <= k
      ensures FitsWindow(b, times, j, k) <==> 1.0 <= Level(b, times, j + 1, k, TimeOf(b, times, k))
    {
      FitsIsLevel(b, times, j + 1, k);
    }
    assert forall a :: 1 <= a <= k + 1 ==>
             (FitsWindow(b, times, a - 1, k) <==> 1.0 <= Level(b, times, a, k, TimeOf(b, times, k)));
  }

  /** Every window obeys the bound: no more than burst + qps * length requests are admitted in it. */
  lemma WindowBound(qps: nat, burst: int, start: real, times: seq<real>, j: nat, k: nat)
    requires qps > 0 && j < k <= |times|
    ensures var b := NewBucket(qps, burst, start);
            Admitted(b, times, j, k) as real <=
              b.burst as real + Earned(b.qps, TimeOf(b, times, k - 1) - TimeOf(b, times, j))
  {
    var b := NewBucket(qps, burst, start);
    LeastLevelInvariant(b, times, k);
    EarnedOfDifference(b.qps, TimeOf(b, times, k - 1), TimeOf(b, times, j));
    assert 0.0 <= Level(b, times, j + 1, k, AnchorTime(b, times, k));
  }
}
