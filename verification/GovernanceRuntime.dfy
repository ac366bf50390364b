/** The governance runtime under concurrent calls (internal/core/governance/runtime.go, ratelimit.go,
    circuitbreaker.go). A call takes several separately locked steps; calls of any number interleave between them. */
module GovernanceRuntime {
  import opened Options
  import opened TokenBuckets
  import opened CircuitBreakers
  import opened GovernancePolicy

  /** A call with its policy, defaults filled in. `authorized` is the verdict of the authorization rules. */
  datatype Request = Request(authorized: bool, rateKey: string, breakerKey: string, policy: Governance)

  function BreakerPolicy(b: Breaking): Policy {
    Policy(b.minRequests, b.errorRate, b.openDuration, b.halfOpenMax)
  }

  predicate Limited(r: RateLimit) {
    r.enabled && r.qps > 0
  }

  // ---- The atomic steps on values ----

  /** The bucket a request is charged to: the key's own, unless there is none or its policy differs. */
  function BucketFor(limiters: map<string, Bucket>, key: string, r: RateLimit, now: real): Bucket
    requires r.qps > 0
  {
    if key in limiters && limiters[key].qps == r.qps && limiters[key].burst == r.burst then limiters[key]
    else NewBucket(r.qps, r.burst, now)
  }

  function AllowRate(limiters: map<string, Bucket>, key: string, r: RateLimit, now: real): (map<string, Bucket>, bool) {
    if !Limited(r) then (limiters, true)
    else
      var (b, ok) := Take(BucketFor(limiters, key, r, now), now);
      (limiters[key := b], ok)
  }

  /** The breaker a call is assigned: the key's own, unless there is none or its policy differs. */
  function BreakerFor(states: map<string, Breaker>, key: string, p: Policy): Breaker {
    if key in states && states[key].policy == p then states[key] else NewBreaker(p)
  }

  datatype Outcome = Denied | RateLimited | CircuitOpen | Succeeded | FellBack

  function Done(success: bool): Outcome {
    if success then Succeeded else FellBack
  }

  /** A call nothing interleaves with asks a breaker at t1 and, if admitted, reports at t2. */
  function AskAlone(b: Breaker, t1: real, t2: real, success: bool): (Breaker, Outcome) {
    var (asked, admitted) := Before(b, t1);
    if admitted then (After(asked, success, t2), Done(success)) else (asked, CircuitOpen)
  }

  /** Such a call with its key's breaker, if it has one. */
  function GuardAlone(states: map<string, Breaker>, key: string, b: Breaking, t1: real, t2: real, success: bool)
    : (map<string, Breaker>, Outcome)
  {
    if !b.enabled then (states, Done(success))
    else
      var (left, out) := AskAlone(BreakerFor(states, key, BreakerPolicy(b)), t1, t2, success);
      (states[key := left], out)
  }

  /** The whole call: authorization, the limiter at t0, the breaker. */
  function InvokeAlone(limits: map<string, Bucket>, states: map<string, Breaker>, req: Request, t0: real, t1: real,
                       t2: real, success: bool): (map<string, Bucket>, map<string, Breaker>, Outcome) {
    var p := ApplyDefaults(req.policy);
    if !req.authorized then (limits, states, Denied)
    else
      var (limits', allowed) := AllowRate(limits, req.rateKey, p.rate, t0);
      if !allowed then (limits', states, RateLimited)
      else
        var (states', out) := GuardAlone(states, req.breakerKey, p.breaking, t1, t2, success);
        (limits', states', out)
  }

  // ---- The runtime object, one call at a time ----

  class Runtime {
    var limiters: map<string, TokenBucket>
    var breakers: map<string, CircuitBreaker>

    constructor ()
      ensures Valid() && limiters == map[] && breakers == map[]
    {
      limiters, breakers := map[], map[];
    }

    /** Every key has objects of its own. */
    ghost predicate Valid()
      reads this
    {
      && (forall k, q :: k in limiters && q in limiters && k != q ==> limiters[k] != limiters[q])
      && (forall k, q :: k in breakers && q in breakers && k != q ==> breakers[k] != breakers[q])
    }

    function Limits(): map<string, Bucket>
      reads this, limiters.Values
    {
      map k | k in limiters :: limiters[k].Value()
    }

    function States(): map<string, Breaker>
      reads this, breakers.Values
    {
      map k | k in breakers :: breakers[k].Value()
    }

    /** A bucket with another policy is replaced by a full one. */
    method GetBucket(key: string, r: RateLimit, now: real) returns (bucket: TokenBucket)
      requires Valid() && Limited(r)
      modifies this`limiters
      ensures Valid() && limiters == old(limiters)[key := bucket]
      ensures fresh(bucket) || (key in old(limiters) && bucket == old(limiters)[key])
      ensures bucket.Value() == BucketFor(old(Limits()), key, r, now)
      ensures Limits() == old(Limits())[key := bucket.Value()]
    {
      if key !in limiters || limiters[key].qps != r.qps || limiters[key].burst != r.burst {
        var created := new TokenBucket(r.qps, r.burst, now);
        limiters := limiters[key := created];
      }
      bucket := limiters[key];
    }

    method Charge(key: string, now: real) returns (ok: bool)
      requires Valid() && key in limiters
      modifies limiters[key]
      ensures ok == Take(old(Limits())[key], now).1
      ensures Limits() == old(Limits())[key := Take(old(Limits())[key], now).0]
    {
      var bucket := limiters[key];
      ok := bucket.Allow(now);
    }

    method TryRate(key: string, r: RateLimit, now: real) returns (ok: bool)
      requires Valid()
      modifies this`limiters, limiters.Values
      ensures Valid() && (Limits(), ok) == AllowRate(old(Limits()), key, r, now)
    {
      if !r.enabled || r.qps <= 0 {
        return true;
      }
      var bucket := GetBucket(key, r, now);
      ghost var before, charged := old(Limits()), bucket.Value();
      ok := Charge(key, now);
      assert before[key := charged][key := Take(charged, now).0] == before[key := Take(charged, now).0];
    }

    /** A breaker with another policy is replaced in the map; calls in flight keep the one they have. */
    method GetBreaker(key: string, b: Breaking) returns (breaker: CircuitBreaker)
      requires Valid()
      modifies this`breakers
      ensures Valid() && breakers == old(breakers)[key := breaker]
      ensures if key in old(breakers) && old(breakers)[key].policy == BreakerPolicy(b)
              then breaker == old(breakers)[key]
              else fresh(breaker)
      ensures breaker.Value() == BreakerFor(old(States()), key, BreakerPolicy(b))
      ensures States() == old(States())[key := breaker.Value()]
    {
      if key !in breakers || breakers[key].policy != BreakerPolicy(b) {
        var created := new CircuitBreaker(BreakerPolicy(b));
        breakers := breakers[key := created];
      }
      breaker := breakers[key];
    }

    /** Asks a breaker and, if admitted, reports the outcome of the invoker. */
    method AskAndReport(key: string, t1: real, t2: real, success: bool) returns (out: Outcome)
      requires Valid() && key in breakers
      modifies breakers[key]
      ensures out == AskAlone(old(States())[key], t1, t2, success).1
      ensures States() == old(States())[key := AskAlone(old(States())[key], t1, t2, success).0]
    {
      var breaker := breakers[key];
      var admitted := breaker.TryBefore(t1);
      if !admitted {
        return CircuitOpen;
      }
      breaker.ReportAfter(success, t2);
      out := Done(success);
    }

    method Guard(key: string, b: Breaking, t1: real, t2: real, success: bool) returns (out: Outcome)
      requires Valid()
      modifies this`breakers, breakers.Values
      ensures Valid() && (States(), out) == GuardAlone(old(States()), key, b, t1, t2, success)
    {
      if !b.enabled {
        return Done(success);
      }
      var breaker := GetBreaker(key, b);
      ghost var before, given := old(States()), breaker.Value();
      assert States() == before[key := given] && States()[key] == given;
      out := AskAndReport(key, t1, t2, success);
      ghost var left := AskAlone(given, t1, t2, success).0;
      assert before[key := given][key := left] == before[key := left];
    }

    method Invoke(req: Request, t0: real, t1: real, t2: real, success: bool) returns (out: Outcome)
      requires Valid()
      modifies this, limiters.Values, breakers.Values
      ensures Valid()
      ensures (Limits(), States(), out) == InvokeAlone(old(Limits()), old(States()), req, t0, t1, t2, success)
    {
      var p := ApplyDefaults(req.policy);
      if !req.authorized {
        return Denied;
      }
      var allowed := TryRate(req.rateKey, p.rate, t0);
      assert States() == old(States());
      if !allowed {
        return RateLimited;
      }
      ghost var limits := Limits();
      out := Guard(req.breakerKey, p.breaking, t1, t2, success);
      assert Limits() == limits;
    }
  }

  // ---- The runtime under interleaving ----

  /** Breakers live on a heap, since calls in flight hold on to them; the registry maps a key to the current one. */
  datatype Call =
    | Arrived(req: Request)
    | RatePassed(req: Request)
    | Found(req: Request, breaker: nat)
    | Invoking(req: Request, held: Option<nat>)
    | Finished(outcome: Outcome)

  datatype System = System(limiters: map<string, Bucket>, registry: map<string, nat>, heap: seq<Breaker>,
                           calls: map<nat, Call>)

  const StartSystem := System(map[], map[], [], map[])

  /** The steps of a call `c`: entering with defaults filled in, authorization and rate limit, finding the breaker,
      asking it, and reporting when the invoker has returned. A step the call is not ready for does nothing. */
  datatype Step =
    | Arrive(c: nat, req: Request)
    | CheckRate(c: nat, now: real)
    | FindBreaker(c: nat)
    | Ask(c: nat, now: real)
    | Report(c: nat, success: bool, now: real)

  function WithCall(s: System, c: nat, call: Call): System {
    s.(calls := s.calls[c := call])
  }

  function DoCheckRate(s: System, c: nat, req: Request, now: real): System {
    if !req.authorized then WithCall(s, c, Finished(Denied))
    else
      var (limiters, ok) := AllowRate(s.limiters, req.rateKey, req.policy.rate, now);
      WithCall(s.(limiters := limiters), c, if ok then RatePassed(req) else Finished(RateLimited))
  }

  function DoFindBreaker(s: System, c: nat, req: Request): System {
    var p := BreakerPolicy(req.policy.breaking);
    if !req.policy.breaking.enabled then WithCall(s, c, Invoking(req, None))
    else if req.breakerKey in s.registry && s.registry[req.breakerKey] < |s.heap|
            && s.heap[s.registry[req.breakerKey]].policy == p then
      WithCall(s, c, Found(req, s.registry[req.breakerKey]))
    else
      var s' := s.(heap := s.heap + [NewBreaker(p)], registry := s.registry[req.breakerKey := |s.heap|]);
      WithCall(s', c, Found(req, |s.heap|))
  }

  function Next(s: System, step: Step): System {
    match step
    case Arrive(c, req) =>
      if c in s.calls then s else WithCall(s, c, Arrived(req.(policy := ApplyDefaults(req.policy))))
    case CheckRate(c, now) =>
      if c in s.calls && s.calls[c].Arrived? then DoCheckRate(s, c, s.calls[c].req, now) else s
    case FindBreaker(c) =>
      if c in s.calls && s.calls[c].RatePassed? then DoFindBreaker(s, c, s.calls[c].req) else s
    case Ask(c, now) =>
      if c in s.calls && s.calls[c].Found? && s.calls[c].breaker < |s.heap| then
        var id := s.calls[c].breaker;
        var (b, ok) := Before(s.heap[id], now);
        WithCall(s.(heap := s.heap[id := b]), c,
                 if ok then Invoking(s.calls[c].req, Some(id)) else Finished(CircuitOpen))
      else s
    case Report(c, success, now) =>
      if c in s.calls && s.calls[c].Invoking? then
        var heap := if s.calls[c].held.Some? && s.calls[c].held.value < |s.heap|
                    then s.heap[s.calls[c].held.value := After(s.heap[s.calls[c].held.value], success, now)]
                    else s.heap;
        WithCall(s.(heap := heap), c, Finished(if success then Succeeded else FellBack))
      else s
  }

  function Run(s: System, steps: seq<Step>): System {
    if steps == [] then s else Next(Run(s, steps[..|steps| - 1]), steps[|steps| - 1])
  }

  lemma RunSnoc(s: System, steps: seq<Step>, step: Step)
    ensures Run(s, steps + [step]) == Next(Run(s, steps), step)
  {
    assert (steps + [step])[..|steps|] == steps;
  }

  lemma {:induction false} RunConcat(s: System, a: seq<Step>, b: seq<Step>)
    ensures Run(s, a + b) == Run(Run(s, a), b)
  {
    if b == [] {
      assert a + b == a;
    } else {
      RunConcat(s, a, b[..|b| - 1]);
      assert (a + b)[..|a + b| - 1] == a + b[..|b| - 1];
    }
  }

  // ---- The breaker never wedges ----

  /** The calls a breaker admitted that have not reported yet. */
  function Pending(s: System, id: nat): set<nat> {
    set c | c in s.calls && s.calls[c].Invoking? && s.calls[c].held == Some(id)
  }

  ghost predicate CallOk(heap: seq<Breaker>, call: Call) {
    match call
    case Arrived(req) => Usable(req.policy)
    case RatePassed(req) => Usable(req.policy)
    case Found(req, id) => id < |heap| && heap[id].policy == BreakerPolicy(req.policy.breaking)
    case Invoking(req, held) => held.Some? ==> held.value < |heap|
    case Finished(_) => true
  }

  ghost predicate WellFormed(s: System) {
    && (forall k :: k in s.registry ==> s.registry[k] < |s.heap|)
    && (forall c :: c in s.calls ==> CallOk(s.heap, s.calls[c]))
  }

  ghost predicate Unwedged(s: System, id: nat)
    requires id < |s.heap|
  {
    var b := s.heap[id];
    && b.policy.halfOpenMax >= 1
    && (b.mode == HalfOpen ==>
          1 <= b.halfOpenRequests <= b.policy.halfOpenMax && b.halfOpenRequests <= |Pending(s, id)|)
  }

  ghost predicate SystemInv(s: System) {
    WellFormed(s) && forall id :: 0 <= id < |s.heap| ==> Unwedged(s, id)
  }

  /** A step moves one call, may add breakers, and may change the state of one breaker but not its policy. */
  ghost predicate Moves(s: System, s': System, c: nat, changed: Option<nat>) {
    && c in s'.calls && s'.calls == s.calls[c := s'.calls[c]]
    && |s.heap| <= |s'.heap|
    && (forall j :: 0 <= j < |s.heap| ==> s'.heap[j].policy == s.heap[j].policy)
    && (forall j :: 0 <= j < |s.heap| && changed != Some(j) ==> s'.heap[j] == s.heap[j])
  }

  lemma MovesKeepForm(s: System, s': System, c: nat, changed: Option<nat>)
    requires WellFormed(s) && Moves(s, s', c, changed) && CallOk(s'.heap, s'.calls[c])
    requires forall k :: k in s'.registry ==> s'.registry[k] < |s'.heap|
    ensures WellFormed(s')
  {
    forall d | d in s'.calls ensures CallOk(s'.heap, s'.calls[d]) {
      if d != c {
        assert CallOk(s.heap, s.calls[d]);
      }
    }
  }

  /** Who is pending on a breaker changes only with the call that moves. */
  lemma PendingAfterMove(s: System, s': System, c: nat, changed: Option<nat>, id: nat)
    requires Moves(s, s', c, changed)
    ensures Pending(s', id) ==
            if s'.calls[c].Invoking? && s'.calls[c].held == Some(id) then Pending(s, id) + {c} else Pending(s, id) - {c}
  {
  }

  lemma AskKeeps(s: System, c: nat, now: real)
    requires SystemInv(s) && c in s.calls && s.calls[c].Found?
    ensures SystemInv(Next(s, Ask(c, now)))
  {
    var s' := Next(s, Ask(c, now));
    assert CallOk(s.heap, s.calls[c]);
    var id := s.calls[c].breaker;
    MovesKeepForm(s, s', c, Some(id));
    forall j | 0 <= j < |s'.heap| ensures Unwedged(s', j) {
      assert Unwedged(s, j);
      PendingAfterMove(s, s', c, Some(id), j);
      assert c !in Pending(s, j);
    }
  }

  lemma ReportKeeps(s: System, c: nat, success: bool, now: real)
    requires SystemInv(s) && c in s.calls && s.calls[c].Invoking?
    ensures SystemInv(Next(s, Report(c, success, now)))
  {
    var s' := Next(s, Report(c, success, now));
    assert CallOk(s.heap, s.calls[c]);
    var held := s.calls[c].held;
    MovesKeepForm(s, s', c, held);
    forall j | 0 <= j < |s'.heap| ensures Unwedged(s', j) {
      assert Unwedged(s, j);
      PendingAfterMove(s, s', c, held, j);
      assert held != Some(j) ==> c !in Pending(s, j);
    }
  }

  /** Steps that neither ask nor report leave every breaker and its pending calls alone. */
  lemma QuietMoveKeeps(s: System, s': System, c: nat)
    requires SystemInv(s) && Moves(s, s', c, None) && CallOk(s'.heap, s'.calls[c])
    requires c in s.calls ==> !s.calls[c].Invoking?
    requires s'.calls[c].Invoking? ==> s'.calls[c].held == None
    requires forall k :: k in s'.registry ==> s'.registry[k] < |s'.heap|
    requires forall j :: |s.heap| <= j < |s'.heap| ==> s'.heap[j].mode == Closed && s'.heap[j].policy.halfOpenMax >= 1
    ensures SystemInv(s')
  {
    MovesKeepForm(s, s', c, None);
    forall j | 0 <= j < |s'.heap| ensures Unwedged(s', j) {
      if j < |s.heap| {
        assert Unwedged(s, j);
        PendingAfterMove(s, s', c, None, j);
        assert c !in Pending(s, j);
      }
    }
  }

  lemma OtherStepsKeep(s: System, step: Step)
    requires SystemInv(s) && !step.Ask? && !step.Report? && Next(s, step) != s
    ensures SystemInv(Next(s, step))
  {
    var s' := Next(s, step);
    if step.Arrive? {
      DefaultsSettle(step.req.policy);
    } else {
      assert CallOk(s.heap, s.calls[step.c]);
    }
    QuietMoveKeeps(s, s', step.c);
  }

  lemma {:induction false} EveryRunKeeps(steps: seq<Step>)
    ensures SystemInv(Run(StartSystem, steps))
  {
    if steps == [] {
    } else {
      var before, step := Run(StartSystem, steps[..|steps| - 1]), steps[|steps| - 1];
      EveryRunKeeps(steps[..|steps| - 1]);
      if Next(before, step) != before {
        match step {
          case Ask(c, now) => AskKeeps(before, c, now);
          case Report(c, success, now) => ReportKeeps(before, c, success, now);
          case _ => OtherStepsKeep(before, step);
        }
      }
    }
  }

  /** Over every interleaving a half-open breaker has admitted between one and HalfOpenMaxRequests probes, at least
      that many calls it admitted are still to report, and the next of them to report takes it out of half-open:
      to closed on success, to open for another openDuration on failure. */
  lemma HalfOpenAlwaysResolves(steps: seq<Step>, id: nat, success: bool, now: real)
    requires id < |Run(StartSystem, steps).heap| && Run(StartSystem, steps).heap[id].mode == HalfOpen
    ensures var s := Run(StartSystem, steps);
            var b := s.heap[id];
            && 1 <= b.halfOpenRequests <= b.policy.halfOpenMax
            && b.halfOpenRequests <= |Pending(s, id)|
            && Pending(s, id) != {}
            && forall c :: c in Pending(s, id) ==>
                 var b' := Next(s, Report(c, success, now)).heap[id];
                 b' == if success then NewBreaker(b.policy) else Opened(b, now)
  {
    EveryRunKeeps(steps);
    var s := Run(StartSystem, steps);
    assert Unwedged(s, id);
    assert |Pending(s, id)| >= 1;
  }

  // ---- Each breaker is a lone breaker fed with its own calls ----

  /** What a step tells breaker `id`. */
  function TellsBreaker(s: System, step: Step, id: nat): seq<Event> {
    match step
    case Ask(c, now) => if c in s.calls && s.calls[c].Found? && s.calls[c].breaker == id then [Asked(now)] else []
    case Report(c, success, now) =>
      if c in s.calls && s.calls[c].Invoking? && s.calls[c].held == Some(id) then [Reported(success, now)] else []
    case _ => []
  }

  /** Everything breaker `id` was told during a run, in order. */
  function History(steps: seq<Step>, id: nat): seq<Event> {
    if steps == [] then []
    else
      var before := steps[..|steps| - 1];
      History(before, id) + TellsBreaker(Run(StartSystem, before), steps[|steps| - 1], id)
  }

  lemma HeapGrows(s: System, step: Step)
    ensures |s.heap| <= |Next(s, step).heap|
  {
  }

  lemma UnbornBreakerHearsNothing(s: System, step: Step, id: nat)
    requires WellFormed(s) && id >= |s.heap|
    ensures TellsBreaker(s, step, id) == []
  {
    if step.c in s.calls {
      assert CallOk(s.heap, s.calls[step.c]);
    }
  }

  lemma {:induction false} UnbornBreakerHasNoHistory(steps: seq<Step>, id: nat)
    requires id >= |Run(StartSystem, steps).heap|
    ensures History(steps, id) == []
  {
    if steps == [] {
    } else {
      var before, step := steps[..|steps| - 1], steps[|steps| - 1];
      EveryRunKeeps(before);
      HeapGrows(Run(StartSystem, before), step);
      UnbornBreakerHasNoHistory(before, id);
      UnbornBreakerHearsNothing(Run(StartSystem, before), step, id);
    }
  }

  lemma BreakerHearsOnlyItsCalls(s: System, step: Step, id: nat)
    requires id < |s.heap|
    ensures id < |Next(s, step).heap|
    ensures var told := TellsBreaker(s, step, id);
            Next(s, step).heap[id] == if told == [] then s.heap[id] else Tell(s.heap[id], told[0])
  {
  }

  lemma NewBreakersAreFresh(s: System, step: Step, id: nat)
    requires WellFormed(s) && |s.heap| <= id < |Next(s, step).heap|
    ensures var b := Next(s, step).heap[id]; b == NewBreaker(b.policy)
    ensures TellsBreaker(s, step, id) == []
  {
  }

  /** Over every interleaving each breaker object is in the state of a lone breaker that was told just the requests
      and reports of the calls assigned to it, in order. A call in flight reports to the breaker that admitted it
      even after the registry replaced it. */
  lemma {:induction false} BreakerIsLone(steps: seq<Step>, id: nat)
    requires id < |Run(StartSystem, steps).heap|
    ensures var b := Run(StartSystem, steps).heap[id]; b == Replay(b.policy, History(steps, id))
  {
    var before := steps[..|steps| - 1];
    var s, step := Run(StartSystem, before), steps[|steps| - 1];
    if id < |s.heap| {
      BreakerIsLone(before, id);
      BreakerHearsOnlyItsCalls(s, step, id);
      var told := TellsBreaker(s, step, id);
      if told != [] {
        ReplaySnoc(s.heap[id].policy, History(before, id), told[0]);
        assert told == [told[0]];
      } else {
        assert History(steps, id) == History(before, id);
      }
    } else {
      UnbornBreakerHasNoHistory(before, id);
      EveryRunKeeps(before);
      NewBreakersAreFresh(s, step, id);
    }
  }

  /** The verdict on a call is the verdict of the lone breaker of its key. */
  lemma VerdictIsLone(steps: seq<Step>, c: nat, now: real)
    requires var s := Run(StartSystem, steps); c in s.calls && s.calls[c].Found?
    ensures var s := Run(StartSystem, steps);
            var p := BreakerPolicy(s.calls[c].req.policy.breaking);
            var lone := Replay(p, History(steps, s.calls[c].breaker));
            Next(s, Ask(c, now)).calls[c] ==
              if Before(lone, now).1 then Invoking(s.calls[c].req, Some(s.calls[c].breaker)) else Finished(CircuitOpen)
  {
    EveryRunKeeps(steps);
    BreakerIsLone(steps, Run(StartSystem, steps).calls[c].breaker);
  }

  /** A step asks for the breaker of `key` with the policy the key has. */
  ghost predicate KeepsBreakerPolicy(s: System, step: Step, key: string, p: Policy) {
    step.FindBreaker? && step.c in s.calls && s.calls[step.c].RatePassed? ==>
      var req := s.calls[step.c].req;
      req.policy.breaking.enabled && req.breakerKey == key ==> BreakerPolicy(req.policy.breaking) == p
  }

  /** Whether a step assigns a breaker to a call of `key`. */
  ghost predicate FindsFor(s: System, step: Step, key: string) {
    && step.FindBreaker? && step.c in s.calls && s.calls[step.c].RatePassed?
    && s.calls[step.c].req.policy.breaking.enabled && s.calls[step.c].req.breakerKey == key
  }

  /** Every step of the run that asks for the breaker of `key` does so with policy p. */
  ghost predicate ConstantBreaking(s: System, steps: seq<Step>, key: string, p: Policy) {
    steps == [] ||
    (var before := steps[..|steps| - 1];
     ConstantBreaking(s, before, key, p) && KeepsBreakerPolicy(Run(s, before), steps[|steps| - 1], key, p))
  }

  /** Every call of `key` that is assigned a breaker during the run is assigned `id`. */
  ghost predicate AssignedOnly(s: System, steps: seq<Step>, key: string, id: nat) {
    steps == [] ||
    (var before, step := steps[..|steps| - 1], steps[|steps| - 1];
     var now := Run(s, before);
     && AssignedOnly(s, before, key, id)
     && (FindsFor(now, step, key) ==>
           step.c in Next(now, step).calls && Next(now, step).calls[step.c] == Found(now.calls[step.c].req, id)))
  }

  lemma KeyStep(s: System, step: Step, key: string, id: nat)
    requires key in s.registry && s.registry[key] == id < |s.heap|
    requires KeepsBreakerPolicy(s, step, key, s.heap[id].policy)
    ensures var s' := Next(s, step);
            && key in s'.registry && s'.registry[key] == id < |s'.heap| && s'.heap[id].policy == s.heap[id].policy
            && (FindsFor(s, step, key) ==> step.c in s'.calls && s'.calls[step.c] == Found(s.calls[step.c].req, id))
  {
  }

  /** While its policy is constant a key keeps one breaker, whatever the calls of other keys do: every call of the key
      is assigned that breaker. */
  lemma {:induction false} KeyKeepsItsBreaker(s: System, steps: seq<Step>, key: string, id: nat)
    requires key in s.registry && s.registry[key] == id < |s.heap|
    requires ConstantBreaking(s, steps, key, s.heap[id].policy)
    ensures AssignedOnly(s, steps, key, id)
    ensures var s' := Run(s, steps);
            key in s'.registry && s'.registry[key] == id < |s'.heap| && s'.heap[id].policy == s.heap[id].policy
  {
    if steps == [] {
    } else {
      var before := steps[..|steps| - 1];
      KeyKeepsItsBreaker(s, before, key, id);
      KeyStep(Run(s, before), steps[|steps| - 1], key, id);
    }
  }

  // ---- Each limiter is a lone bucket fed with its own calls ----

  /** Whether a step charges a call to the bucket of `key`. */
  predicate Charges(s: System, step: Step, key: string) {
    && step.CheckRate? && step.c in s.calls && s.calls[step.c].Arrived?
    && s.calls[step.c].req.authorized && Limited(s.calls[step.c].req.policy.rate)
    && s.calls[step.c].req.rateKey == key
  }

  /** The times at which calls of `key` were charged during a run from `s`. */
  function ChargeTimes(s: System, steps: seq<Step>, key: string): seq<real> {
    if steps == [] then []
    else
      var before, step := steps[..|steps| - 1], steps[|steps| - 1];
      ChargeTimes(s, before, key) + if Charges(Run(s, before), step, key) then [step.now] else []
  }

  predicate CarriesRate(s: System, step: Step, key: string, r: RateLimit) {
    Charges(s, step, key) ==>
      s.calls[step.c].req.policy.rate.qps == r.qps && s.calls[step.c].req.policy.rate.burst == r.burst
  }

  /** All calls charged to `key` during the run carry the policy r. */
  ghost predicate ConstantRate(s: System, steps: seq<Step>, key: string, r: RateLimit) {
    steps == [] ||
    (var before := steps[..|steps| - 1];
     ConstantRate(s, before, key, r) && CarriesRate(Run(s, before), steps[|steps| - 1], key, r))
  }

  lemma LimiterStep(s: System, step: Step, key: string, r: RateLimit)
    requires r.qps > 0 && CarriesRate(s, step, key, r)
    ensures var s' := Next(s, step);
            if Charges(s, step, key) then
              var (b, ok) := Take(BucketFor(s.limiters, key, r, step.now), step.now);
              && s'.limiters == s.limiters[key := b]
              && step.c in s'.calls
              && s'.calls[step.c] == (if ok then RatePassed(s.calls[step.c].req) else Finished(RateLimited))
            else (key in s'.limiters <==> key in s.limiters)
                 && (key in s.limiters ==> s'.limiters[key] == s.limiters[key])
  {
  }

  lemma ChargeTimesSnoc(s: System, steps: seq<Step>, step: Step, key: string)
    ensures ChargeTimes(s, steps + [step], key) ==
            ChargeTimes(s, steps, key) + if Charges(Run(s, steps), step, key) then [step.now] else []
  {
    assert (steps + [step])[..|steps|] == steps;
  }

  lemma AfterRequestsSnoc(b: Bucket, times: seq<real>, now: real)
    ensures AfterRequests(b, times + [now]) == Take(AfterRequests(b, times), now).0
    ensures Admits(b, times + [now], |times|) == Take(AfterRequests(b, times), now).1
    ensures AfterRequests(b, times).qps == b.qps && AfterRequests(b, times).burst == b.burst
  {
    assert (times + [now])[..|times|] == times;
    if times != [] {
      AfterRequestsSnoc(b, times[..|times| - 1], times[|times| - 1]);
      assert times[..|times| - 1] + [times[|times| - 1]] == times;
    }
  }

  /** The bucket the next charge at `now` meets is the lone bucket, charged with the key's calls so far. */
  ghost predicate LoneBucket(s: System, limiters: map<string, Bucket>, key: string, r: RateLimit, times: seq<real>)
    requires r.qps > 0
  {
    if times == [] then
      (key in limiters <==> key in s.limiters) && (key in limiters ==> limiters[key] == s.limiters[key])
    else
      var b := BucketFor(s.limiters, key, r, times[0]);
      && key in limiters && limiters[key] == AfterRequests(b, times)
      && limiters[key].qps == r.qps && limiters[key].burst == r.burst
  }

  lemma ChargeIsLone(s: System, limiters: map<string, Bucket>, key: string, r: RateLimit, times: seq<real>, now: real)
    requires r.qps > 0 && r.burst > 0 && LoneBucket(s, limiters, key, r, times)
    ensures var b := BucketFor(s.limiters, key, r, (times + [now])[0]);
            && BucketFor(limiters, key, r, now) == AfterRequests(b, times)
            && b.qps == r.qps && b.burst == r.burst
  {
  }

  /** Over a stretch in which the policy of a key is constant, the key's bucket is a lone bucket charged with the
      key's calls only: the one the key had if its policy matched, else a full one from the first charge on. */
  lemma {:induction false} LimiterIsLone(s: System, steps: seq<Step>, key: string, r: RateLimit)
    requires r.qps > 0 && r.burst > 0 && ConstantRate(s, steps, key, r)
    ensures LoneBucket(s, Run(s, steps).limiters, key, r, ChargeTimes(s, steps, key))
  {
    if steps == [] {
    } else {
      var before, step := steps[..|steps| - 1], steps[|steps| - 1];
      LimiterIsLone(s, before, key, r);
      var now, times := Run(s, before), ChargeTimes(s, before, key);
      LimiterStep(now, step, key, r);
      ChargeTimesSnoc(s, before, step, key);
      assert before + [step] == steps;
      if Charges(now, step, key) {
        ChargeIsLone(s, now.limiters, key, r, times, step.now);
        AfterRequestsSnoc(BucketFor(s.limiters, key, r, (times + [step.now])[0]), times, step.now);
      } else {
        assert ChargeTimes(s, steps, key) == times;
      }
    }
  }

  /** The verdict on a charged call is the verdict of the lone bucket. */
  lemma RateVerdictIsLone(s: System, steps: seq<Step>, key: string, r: RateLimit, step: Step)
    requires r.qps > 0 && r.burst > 0 && ConstantRate(s, steps, key, r)
    requires Charges(Run(s, steps), step, key) && CarriesRate(Run(s, steps), step, key, r)
    ensures var times := ChargeTimes(s, steps, key) + [step.now];
            var s' := Next(Run(s, steps), step);
            && step.c in s'.calls
            && (s'.calls[step.c].RatePassed? <==>
                Admits(BucketFor(s.limiters, key, r, times[0]), times, |times| - 1))
            && (!s'.calls[step.c].RatePassed? ==> s'.calls[step.c] == Finished(RateLimited))
  {
    LimiterIsLone(s, steps, key, r);
    var now, times := Run(s, steps), ChargeTimes(s, steps, key);
    LimiterStep(now, step, key, r);
    ChargeIsLone(s, now.limiters, key, r, times, step.now);
    AfterRequestsSnoc(BucketFor(s.limiters, key, r, (times + [step.now])[0]), times, step.now);
  }

  /** The registered breakers by key. */
  function Registered(s: System): map<string, Breaker> {
    map k | k in s.registry && s.registry[k] < |s.heap| :: s.heap[s.registry[k]]
  }

  /** A call that looks for its breaker is given the one the registry then has, new or kept. */
  lemma FindingBreaker(s: System, c: nat)
    requires c in s.calls && s.calls[c].RatePassed? && s.calls[c].req.policy.breaking.enabled
    requires forall k :: k in s.registry ==> s.registry[k] < |s.heap|
    ensures var req, s' := s.calls[c].req, Next(s, FindBreaker(c));
            && req.breakerKey in s'.registry && s'.registry[req.breakerKey] < |s'.heap|
            && s'.calls[c] == Found(req, s'.registry[req.breakerKey])
            && s'.heap[s'.registry[req.breakerKey]] ==
               BreakerFor(Registered(s), req.breakerKey, BreakerPolicy(req.policy.breaking))
            && s'.limiters == s.limiters
  {
  }

  /** Asking and reporting with nothing in between. */
  lemma UndisturbedAsk(s: System, c: nat, t1: real, t2: real, success: bool)
    requires c in s.calls && s.calls[c].Found? && s.calls[c].breaker < |s.heap|
    ensures var id, s' := s.calls[c].breaker, Next(Next(s, Ask(c, t1)), Report(c, success, t2));
            var (left, out) := AskAlone(s.heap[id], t1, t2, success);
            && s'.limiters == s.limiters && s'.registry == s.registry
            && c in s'.calls && s'.calls[c] == Finished(out) && s'.heap == s.heap[id := left]
  {
  }

  /** From the rate limit on, the steps of a call taken one after the other. */
  lemma UndisturbedGuard(s: System, c: nat, t1: real, t2: real, success: bool)
    requires c in s.calls && s.calls[c].RatePassed? && forall k :: k in s.registry ==> s.registry[k] < |s.heap|
    ensures var req := s.calls[c].req;
            var s' := Next(Next(Next(s, FindBreaker(c)), Ask(c, t1)), Report(c, success, t2));
            var (states, out) := GuardAlone(Registered(s), req.breakerKey, req.policy.breaking, t1, t2, success);
            && s'.limiters == s.limiters
            && c in s'.calls && s'.calls[c] == Finished(out)
            && (req.breakerKey in states <==> req.breakerKey in Registered(s'))
            && (req.breakerKey in states ==> Registered(s')[req.breakerKey] == states[req.breakerKey])
  {
    if s.calls[c].req.policy.breaking.enabled {
      FindingBreaker(s, c);
      UndisturbedAsk(Next(s, FindBreaker(c)), c, t1, t2, success);
    }
  }

  /** Taken one after the other, the steps of a call do what the undisturbed call does. */
  lemma UndisturbedCall(s: System, c: nat, req: Request, t0: real, t1: real, t2: real, success: bool)
    requires c !in s.calls && forall k :: k in s.registry ==> s.registry[k] < |s.heap|
    ensures var checked := Next(Next(s, Arrive(c, req)), CheckRate(c, t0));
            var s' := Next(Next(Next(checked, FindBreaker(c)), Ask(c, t1)), Report(c, success, t2));
            var (limits, states, out) := InvokeAlone(s.limiters, Registered(s), req, t0, t1, t2, success);
            && s'.limiters == limits
            && c in s'.calls && s'.calls[c] == Finished(out)
            && (req.breakerKey in states <==> req.breakerKey in Registered(s'))
            && (req.breakerKey in states ==> Registered(s')[req.breakerKey] == states[req.breakerKey])
  {
    var checked := Next(Next(s, Arrive(c, req)), CheckRate(c, t0));
    assert Registered(checked) == Registered(s);
    if checked.calls[c].RatePassed? {
      UndisturbedGuard(checked, c, t1, t2, success);
    }
  }
}
