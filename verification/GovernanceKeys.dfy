/** Keys do not share breakers (internal/core/governance/circuitbreaker.go, runtime.go): over every interleaving each
    breaker serves the calls of one key, so the verdicts on a key's calls are those of a lone breaker fed with the
    events of that key's calls and nothing else. */
module GovernanceKeys {
  import opened Options
  import opened CircuitBreakers
  import opened GovernancePolicy
  import opened GovernanceRuntime
  import opened TokenBuckets

  // ---- Each breaker belongs to one key ----

  /** The key each breaker was made for, by breaker. */
  function Owners(steps: seq<Step>): seq<string> {
    if steps == [] then []
    else
      var before, step := steps[..|steps| - 1], steps[|steps| - 1];
      var s := Run(StartSystem, before);
      if |Next(s, step).heap| > |s.heap| && step.c in s.calls && s.calls[step.c].RatePassed?
      then Owners(before) + [s.calls[step.c].req.breakerKey]
      else Owners(before)
  }

  predicate CallOwned(owners: seq<string>, call: Call) {
    match call
    case Found(req, id) => id < |owners| && owners[id] == req.breakerKey
    case Invoking(req, held) => held.Some? ==> held.value < |owners| && owners[held.value] == req.breakerKey
    case _ => true
  }

  /** Registered breakers and breakers held by calls belong to the key they are registered for or held under. */
  ghost predicate Owned(s: System, owners: seq<string>) {
    && |owners| == |s.heap|
    && (forall k :: k in s.registry ==> s.registry[k] < |owners| && owners[s.registry[k]] == k)
    && (forall c :: c in s.calls ==> CallOwned(owners, s.calls[c]))
  }

  /** Whether a step gives the key a new breaker: it has none, or one of another policy. */
  predicate Renews(s: System, step: Step, key: string) {
    && step.FindBreaker? && step.c in s.calls && s.calls[step.c].RatePassed?
    && s.calls[step.c].req.policy.breaking.enabled && s.calls[step.c].req.breakerKey == key
    && !(key in s.registry && s.registry[key] < |s.heap|
         && s.heap[s.registry[key]].policy == BreakerPolicy(s.calls[step.c].req.policy.breaking))
  }

  lemma FindKeepsOwned(s: System, c: nat, owners: seq<string>)
    requires Owned(s, owners) && c in s.calls && s.calls[c].RatePassed?
    ensures var s', key := Next(s, FindBreaker(c)), s.calls[c].req.breakerKey;
            if Renews(s, FindBreaker(c), key) then |s'.heap| == |s.heap| + 1 && Owned(s', owners + [key])
            else |s'.heap| == |s.heap| && Owned(s', owners)
  {
    var s', key := Next(s, FindBreaker(c)), s.calls[c].req.breakerKey;
    var owners' := if Renews(s, FindBreaker(c), key) then owners + [key] else owners;
    forall d | d in s'.calls ensures CallOwned(owners', s'.calls[d]) {
      if d != c {
        assert CallOwned(owners, s.calls[d]);
      }
    }
  }

  lemma OtherStepKeepsOwned(s: System, step: Step, owners: seq<string>)
    requires Owned(s, owners) && !(step.FindBreaker? && step.c in s.calls && s.calls[step.c].RatePassed?)
    ensures |Next(s, step).heap| == |s.heap| && Next(s, step).registry == s.registry && Owned(Next(s, step), owners)
  {
    var s' := Next(s, step);
    forall d | d in s'.calls ensures CallOwned(owners, s'.calls[d]) {
      if d in s.calls {
        assert CallOwned(owners, s.calls[d]);
      }
    }
  }

  lemma {:induction false} EveryRunIsOwned(steps: seq<Step>)
    ensures Owned(Run(StartSystem, steps), Owners(steps))
  {
    if steps == [] {
    } else {
      var before, step := steps[..|steps| - 1], steps[|steps| - 1];
      EveryRunIsOwned(before);
      var s := Run(StartSystem, before);
      if step.FindBreaker? && step.c in s.calls && s.calls[step.c].RatePassed? {
        FindKeepsOwned(s, step.c, Owners(before));
      } else {
        OtherStepKeepsOwned(s, step, Owners(before));
      }
    }
  }

  /** The key under which a call holds a breaker, and the breaker. */
  function Holds(s: System, c: nat): Option<(string, nat)> {
    if c !in s.calls then None
    else
      match s.calls[c]
      case Found(req, id) => Some((req.breakerKey, id))
      case Invoking(req, Some(id)) => Some((req.breakerKey, id))
      case _ => None
  }

  /** Over every interleaving, calls of different keys never hold one breaker, and different keys are never registered
      with one. */
  lemma KeysShareNoBreaker(steps: seq<Step>)
    ensures var s := Run(StartSystem, steps);
            && (forall c, d :: Holds(s, c).Some? && Holds(s, d).Some? && Holds(s, c).value.1 == Holds(s, d).value.1 ==>
                  Holds(s, c).value.0 == Holds(s, d).value.0)
            && (forall c, k :: Holds(s, c).Some? && k in s.registry && s.registry[k] == Holds(s, c).value.1 ==>
                  Holds(s, c).value.0 == k)
            && (forall k, q :: k in s.registry && q in s.registry && s.registry[k] == s.registry[q] ==> k == q)
  {
    EveryRunIsOwned(steps);
    var s, owners := Run(StartSystem, steps), Owners(steps);
    forall c | Holds(s, c).Some? ensures var (key, id) := Holds(s, c).value; id < |owners| && owners[id] == key {
      assert CallOwned(owners, s.calls[c]);
    }
  }

  // ---- The verdicts on a key's calls ----

  /** What the call that takes a step tells the breaker it holds. */
  function TellsHeld(s: System, step: Step): seq<Event> {
    if Holds(s, step.c) == None then []
    else
      match step
      case Ask(c, now) => if s.calls[c].Found? then [Asked(now)] else []
      case Report(c, success, now) => if s.calls[c].Invoking? then [Reported(success, now)] else []
      case _ => []
  }

  /** What a step of a call of `key` tells the breaker that the key is registered with. */
  function KeyTells(s: System, step: Step, key: string): seq<Event> {
    if key in s.registry && Holds(s, step.c) == Some((key, s.registry[key])) then TellsHeld(s, step) else []
  }

  /** How the history of a key grows in one step. */
  function NextHistory(s: System, step: Step, key: string, h: seq<Event>): seq<Event> {
    if Renews(s, step, key) then [] else h + KeyTells(s, step, key)
  }

  /** The events of the key's own calls since its policy last changed. Calls that the replaced breaker admitted report
      to that one, and are left out. */
  function KeyHistory(steps: seq<Step>, key: string): seq<Event> {
    if steps == [] then []
    else
      var before := steps[..|steps| - 1];
      NextHistory(Run(StartSystem, before), steps[|steps| - 1], key, KeyHistory(before, key))
  }

  ghost predicate RegistrySound(s: System) {
    forall k :: k in s.registry ==> s.registry[k] < |s.heap|
  }

  lemma RegistryStep(s: System, step: Step, key: string)
    requires RegistrySound(s)
    ensures var s' := Next(s, step);
            if Renews(s, step, key) then
              key in s'.registry && s'.registry[key] < |s'.heap| &&
              s'.heap[s'.registry[key]] == NewBreaker(BreakerPolicy(s.calls[step.c].req.policy.breaking))
            else (key in s'.registry <==> key in s.registry) &&
                 (key in s.registry ==> s'.registry[key] == s.registry[key])
  {
  }

  /** All that a registered breaker is told comes from its key's calls. */
  lemma OnlyTheKeyTells(steps: seq<Step>, step: Step, key: string)
    requires key in Run(StartSystem, steps).registry
    ensures var s := Run(StartSystem, steps);
            TellsBreaker(s, step, s.registry[key]) == KeyTells(s, step, key)
  {
    KeysShareNoBreaker(steps);
    var s := Run(StartSystem, steps);
    if TellsBreaker(s, step, s.registry[key]) != [] {
      assert Holds(s, step.c).Some? && Holds(s, step.c).value.1 == s.registry[key];
    }
  }

  /** Over every interleaving of calls of any keys, the breaker of a key is a lone breaker that was told just the
      events of that key's calls since its policy last changed. */
  lemma {:induction false} KeyBreakerIsLone(steps: seq<Step>, key: string)
    requires key in Run(StartSystem, steps).registry
    ensures var s := Run(StartSystem, steps);
            && s.registry[key] < |s.heap|
            && var b := s.heap[s.registry[key]]; b == Replay(b.policy, KeyHistory(steps, key))
  {
    var before, step := steps[..|steps| - 1], steps[|steps| - 1];
    var s := Run(StartSystem, before);
    EveryRunKeeps(before);
    RegistryStep(s, step, key);
    if !Renews(s, step, key) {
      var id := s.registry[key];
      KeyBreakerIsLone(before, key);
      OnlyTheKeyTells(before, step, key);
      BreakerHearsOnlyItsCalls(s, step, id);
      ToldOnce(s, step, key, KeyHistory(before, key));
    }
  }

  lemma ToldOnce(s: System, step: Step, key: string, h: seq<Event>)
    requires key in s.registry && s.registry[key] < |s.heap|
    requires s.heap[s.registry[key]] == Replay(s.heap[s.registry[key]].policy, h)
    ensures var told, b := KeyTells(s, step, key), s.heap[s.registry[key]];
            Replay(b.policy, h + told) == if told == [] then b else Tell(b, told[0])
  {
    var told := KeyTells(s, step, key);
    if told == [] {
      assert h + told == h;
    } else {
      assert told == [told[0]];
      ReplaySnoc(s.heap[s.registry[key]].policy, h, told[0]);
    }
  }

  /** The verdict on a call, unless its key's policy changed since the call found its breaker, is that of a lone
      breaker fed with the events of the key's calls alone. */
  lemma KeyVerdictIsLone(steps: seq<Step>, c: nat, now: real)
    requires var s := Run(StartSystem, steps);
             && c in s.calls && s.calls[c].Found?
             && s.calls[c].req.breakerKey in s.registry && s.registry[s.calls[c].req.breakerKey] == s.calls[c].breaker
    ensures var s := Run(StartSystem, steps);
            var req := s.calls[c].req;
            var lone := Replay(BreakerPolicy(req.policy.breaking), KeyHistory(steps, req.breakerKey));
            Next(s, Ask(c, now)).calls[c] ==
              if Before(lone, now).1 then Invoking(req, Some(s.calls[c].breaker)) else Finished(CircuitOpen)
  {
    var s := Run(StartSystem, steps);
    EveryRunKeeps(steps);
    assert CallOk(s.heap, s.calls[c]);
    KeyBreakerIsLone(steps, s.calls[c].req.breakerKey);
  }

  // ---- A stretch of constant policy ----

  /** What the key's calls tell in one step. */
  function KeyEvent(s: System, step: Step, key: string): seq<Event> {
    var held := Holds(s, step.c);
    if held.Some? && held.value.0 == key then TellsHeld(s, step) else []
  }

  /** What the calls of `key` tell any breakers during a run from `s`. */
  function KeyEvents(s: System, steps: seq<Step>, key: string): seq<Event> {
    if steps == [] then []
    else
      var before := steps[..|steps| - 1];
      KeyEvents(s, before, key) + KeyEvent(Run(s, before), steps[|steps| - 1], key)
  }

  predicate HasPolicy(s: System, key: string, p: Policy) {
    key in s.registry && s.registry[key] < |s.heap| && s.heap[s.registry[key]].policy == p
  }

  /** No call of the key is in flight under an earlier policy. */
  ghost predicate Settled(s: System, key: string, p: Policy) {
    forall c :: Holds(s, c).Some? && Holds(s, c).value.0 == key ==>
      HasPolicy(s, key, p) && Holds(s, c).value.1 == s.registry[key]
  }

  lemma HoldsStep(s: System, step: Step, c: nat)
    ensures var s' := Next(s, step);
            Holds(s', c) == Holds(s, c) || Holds(s', c) == None ||
            (step == FindBreaker(c) && c in s.calls && s.calls[c].RatePassed? && Holds(s, c) == None &&
             s.calls[c].req.policy.breaking.enabled && s.calls[c].req.breakerKey in s'.registry &&
             Holds(s', c) == Some((s.calls[c].req.breakerKey, s'.registry[s.calls[c].req.breakerKey])))
  {
  }

  lemma PolicyStep(s: System, step: Step, key: string, p: Policy)
    requires RegistrySound(s) && KeepsBreakerPolicy(s, step, key, p)
    ensures var s' := Next(s, step);
            && (HasPolicy(s, key, p) ==> HasPolicy(s', key, p) && s'.registry[key] == s.registry[key])
            && (HasPolicy(s, key, p) ==> !Renews(s, step, key))
            && (Renews(s, step, key) ==> HasPolicy(s', key, p))
            && (HasPolicy(s', key, p) ==> HasPolicy(s, key, p) || Renews(s, step, key))
            && (FindsFor(s, step, key) ==> HasPolicy(s', key, p))
  {
  }

  lemma SettledStep(s: System, step: Step, key: string, p: Policy)
    requires RegistrySound(s) && KeepsBreakerPolicy(s, step, key, p)
    requires Settled(s, key, p)
    ensures Settled(Next(s, step), key, p)
  {
    var s' := Next(s, step);
    PolicyStep(s, step, key, p);
    forall c | Holds(s', c).Some? && Holds(s', c).value.0 == key
      ensures HasPolicy(s', key, p) && Holds(s', c).value.1 == s'.registry[key]
    {
      HoldsStep(s, step, c);
    }
  }

  /** The history a stretch begins with: that of the breaker the key has, if that is of the stretch's policy. */
  function Inherited(prefix: seq<Step>, key: string, p: Policy): seq<Event> {
    if HasPolicy(Run(StartSystem, prefix), key, p) then KeyHistory(prefix, key) else []
  }

  lemma HistorySnoc(steps: seq<Step>, step: Step, key: string)
    ensures KeyHistory(steps + [step], key) == NextHistory(Run(StartSystem, steps), step, key, KeyHistory(steps, key))
  {
    assert (steps + [step])[..|steps|] == steps;
  }

  lemma SettledEvent(s: System, step: Step, key: string, p: Policy)
    requires Settled(s, key, p)
    ensures KeyEvent(s, step, key) == if HasPolicy(s, key, p) then KeyTells(s, step, key) else []
  {
  }

  /** The history of the key is what the stretch inherited and the key's events in it; before the stretch has its
      breaker there are none. */
  ghost predicate InStretch(s: System, key: string, p: Policy, base: seq<Event>, h: seq<Event>, events: seq<Event>) {
    Settled(s, key, p) && if HasPolicy(s, key, p) then h == base + events else events == base == []
  }

  lemma StretchStep(s: System, step: Step, key: string, p: Policy, base: seq<Event>, h: seq<Event>, events: seq<Event>)
    requires RegistrySound(s) && KeepsBreakerPolicy(s, step, key, p)
    requires InStretch(s, key, p, base, h, events)
    ensures InStretch(Next(s, step), key, p, base, NextHistory(s, step, key, h), events + KeyEvent(s, step, key))
  {
    SettledStep(s, step, key, p);
    PolicyStep(s, step, key, p);
    SettledEvent(s, step, key, p);
    var told := KeyTells(s, step, key);
    if HasPolicy(s, key, p) {
      assert base + events + told == base + (events + told);
    } else {
      assert events + [] == events;
    }
  }

  lemma EventsSnoc(s: System, steps: seq<Step>, step: Step, key: string)
    ensures KeyEvents(s, steps + [step], key) == KeyEvents(s, steps, key) + KeyEvent(Run(s, steps), step, key)
  {
    assert (steps + [step])[..|steps|] == steps;
  }

  /** InStretch for the run of a stretch behind a prefix. */
  ghost predicate Stretched(prefix: seq<Step>, steps: seq<Step>, key: string, p: Policy) {
    var s := Run(StartSystem, prefix);
    InStretch(Run(s, steps), key, p, Inherited(prefix, key, p), KeyHistory(prefix + steps, key),
              KeyEvents(s, steps, key))
  }

  lemma PrefixSnoc(prefix: seq<Step>, steps: seq<Step>, step: Step, key: string)
    ensures var s := Run(Run(StartSystem, prefix), steps);
            && Run(Run(StartSystem, prefix), steps + [step]) == Next(s, step)
            && KeyHistory(prefix + (steps + [step]), key) == NextHistory(s, step, key, KeyHistory(prefix + steps, key))
  {
    RunConcat(StartSystem, prefix, steps);
    RunSnoc(Run(StartSystem, prefix), steps, step);
    HistorySnoc(prefix + steps, step, key);
    assert prefix + steps + [step] == prefix + (steps + [step]);
  }

  lemma ReachedRegistry(prefix: seq<Step>, steps: seq<Step>)
    ensures RegistrySound(Run(Run(StartSystem, prefix), steps))
  {
    RunConcat(StartSystem, prefix, steps);
    EveryRunKeeps(prefix + steps);
  }

  lemma StretchSnoc(prefix: seq<Step>, steps: seq<Step>, step: Step, key: string, p: Policy)
    requires Stretched(prefix, steps, key, p)
    requires KeepsBreakerPolicy(Run(Run(StartSystem, prefix), steps), step, key, p)
    ensures Stretched(prefix, steps + [step], key, p)
  {
    var s := Run(StartSystem, prefix);
    ReachedRegistry(prefix, steps);
    StretchStep(Run(s, steps), step, key, p, Inherited(prefix, key, p), KeyHistory(prefix + steps, key),
                KeyEvents(s, steps, key));
    PrefixSnoc(prefix, steps, step, key);
    EventsSnoc(s, steps, step, key);
  }

  lemma {:induction false} StretchAddsKeyEvents(prefix: seq<Step>, steps: seq<Step>, key: string, p: Policy)
    requires var s := Run(StartSystem, prefix); Settled(s, key, p) && ConstantBreaking(s, steps, key, p)
    ensures Stretched(prefix, steps, key, p)
  {
    if steps == [] {
      EmptyStretch(prefix, key, p);
    } else {
      var before, step := steps[..|steps| - 1], steps[|steps| - 1];
      StretchAddsKeyEvents(prefix, before, key, p);
      StretchSnoc(prefix, before, step, key, p);
      assert before + [step] == steps;
    }
  }

  lemma EmptyStretch(prefix: seq<Step>, key: string, p: Policy)
    requires Settled(Run(StartSystem, prefix), key, p)
    ensures Stretched(prefix, [], key, p)
  {
    assert prefix + [] == prefix && Inherited(prefix, key, p) + [] == Inherited(prefix, key, p);
  }

  /** Over a stretch in which the policy of a key is constant, and which starts with none of its calls in flight under
      an earlier policy, every verdict on a call of the key is that of a lone breaker which is told the key's events
      only: those its breaker had heard before, and all events of the key's calls in the stretch. */
  lemma StretchVerdictIsLone(prefix: seq<Step>, steps: seq<Step>, key: string, p: Policy, c: nat, now: real)
    requires var s := Run(StartSystem, prefix); Settled(s, key, p) && ConstantBreaking(s, steps, key, p)
    requires var s := Run(StartSystem, prefix + steps);
             c in s.calls && s.calls[c].Found? && s.calls[c].req.breakerKey == key
    ensures var s := Run(StartSystem, prefix + steps);
            var lone := Replay(p, Inherited(prefix, key, p) + KeyEvents(Run(StartSystem, prefix), steps, key));
            Next(s, Ask(c, now)).calls[c] ==
              if Before(lone, now).1 then Invoking(s.calls[c].req, Some(s.calls[c].breaker)) else Finished(CircuitOpen)
  {
    var s := Run(StartSystem, prefix + steps);
    StretchAddsKeyEvents(prefix, steps, key, p);
    RunConcat(StartSystem, prefix, steps);
    assert Holds(s, c) == Some((key, s.calls[c].breaker));
    EveryRunKeeps(prefix + steps);
    assert CallOk(s.heap, s.calls[c]);
    KeyVerdictIsLone(prefix + steps, c, now);
  }

  lemma NothingInherited(events: seq<Event>, key: string, p: Policy)
    ensures Inherited([], key, p) + events == events
  {
    assert [] + events == events;
  }

  /** In particular: if the policy of a key never changes, its verdicts are those of a lone breaker fed with all the
      events of that key's calls and no others. */
  lemma VerdictsOfAKeyAreItsOwn(steps: seq<Step>, key: string, p: Policy, c: nat, now: real)
    requires ConstantBreaking(StartSystem, steps, key, p)
    requires var s := Run(StartSystem, steps); c in s.calls && s.calls[c].Found? && s.calls[c].req.breakerKey == key
    ensures var s := Run(StartSystem, steps);
            Next(s, Ask(c, now)).calls[c] ==
              if Before(Replay(p, KeyEvents(StartSystem, steps, key)), now).1
              then Invoking(s.calls[c].req, Some(s.calls[c].breaker)) else Finished(CircuitOpen)
  {
    assert [] + steps == steps;
    StretchVerdictIsLone([], steps, key, p, c, now);
    NothingInherited(KeyEvents(StartSystem, steps, key), key, p);
  }

  // ---- The windows of a key ----

  /** A charged call of a key is let through if and only if it fits every window of that key's charges: the one since
      the key's first charge, and those since each charge up to its own. */
  lemma ChargedCallFitsItsWindows(steps: seq<Step>, key: string, r: RateLimit, step: Step)
    requires r.qps > 0 && r.burst > 0 && ConstantRate(StartSystem, steps, key, r)
    requires Charges(Run(StartSystem, steps), step, key) && CarriesRate(Run(StartSystem, steps), step, key, r)
    ensures var times := ChargeTimes(StartSystem, steps, key) + [step.now];
            var b, k := NewBucket(r.qps, r.burst, times[0]), |times| - 1;
            var s' := Next(Run(StartSystem, steps), step);
            && step.c in s'.calls
            && (s'.calls[step.c].RatePassed? <==>
                FitsSinceCreation(b, times, k) && forall j :: 0 <= j <= k ==> FitsWindow(b, times, j, k))
  {
    var times := ChargeTimes(StartSystem, steps, key) + [step.now];
    RateVerdictIsLone(StartSystem, steps, key, r, step);
    BucketIsSlidingWindow(r.qps, r.burst, times[0], times, |times| - 1);
  }
}
