/** Instance selection (internal/core/discovery/load_balancer.go): weighted round robin is exactly proportional.
    Weights are reals and the counter does not wrap. */
module LoadBalancers {

  datatype Instance = Instance(address: string, weight: real)

  /** The weight as an integer, truncated toward zero, and at least one. */
  function Weight(i: Instance): (w: nat)
    ensures w >= 1
    ensures i.weight >= 1.0 ==> w as real <= i.weight < w as real + 1.0
    ensures i.weight < 1.0 ==> w == 1
  {
    var truncated := if i.weight >= 0.0 then i.weight.Floor else -((-i.weight).Floor);
    if truncated <= 0 then 1 else truncated
  }

  /** What each instance weighs. */
  function Weights(instances: seq<Instance>): (ws: seq<nat>)
    ensures |ws| == |instances|
    ensures forall i :: 0 <= i < |ws| ==> ws[i] == Weight(instances[i])
    ensures instances != [] ==> Cursor(ws, |ws|) > 0
  {
    if instances == [] then [] else Weights(instances[..|instances| - 1]) + [Weight(instances[|instances| - 1])]
  }

  /** The total of the first n weights. */
  function Cursor(ws: seq<nat>, n: nat): (c: nat)
    requires n <= |ws|
  {
    if n == 0 then 0 else Cursor(ws, n - 1) + ws[n - 1]
  }

  function Total(ws: seq<nat>): nat {
    Cursor(ws, |ws|)
  }

  /** The instance whose share of the cycle a slot falls into. */
  function PickFrom(ws: seq<nat>, slot: nat, n: nat): (i: nat)
    requires n <= |ws| && slot < Cursor(ws, n)
    ensures i < n && Cursor(ws, i) <= slot < Cursor(ws, i + 1)
  {
    if slot >= Cursor(ws, n - 1) then n - 1 else PickFrom(ws, slot, n - 1)
  }

  /** The counter's place in its cycle: next % w (SlotIsRemainder), written as repeated subtraction. */
  function Slot(next: nat, w: nat): (slot: nat)
    requires w > 0
    ensures slot < w
  {
    if next < w then next else Slot(next - w, w)
  }

  function Pick(ws: seq<nat>, next: nat): (i: nat)
    requires Total(ws) > 0
    ensures i < |ws|
    ensures Cursor(ws, i) <= Slot(next, Total(ws)) < Cursor(ws, i + 1)
  {
    PickFrom(ws, Slot(next, Total(ws)), |ws|)
  }

  lemma {:induction false} CursorGrows(ws: seq<nat>, a: nat, b: nat)
    requires a <= b <= |ws|
    ensures Cursor(ws, a) <= Cursor(ws, b)
  {
    if a < b {
      CursorGrows(ws, a, b - 1);
    }
  }

  /** Shares do not overlap, so a slot belongs to exactly one instance. */
  lemma PickIsUnique(ws: seq<nat>, next: nat, i: nat)
    requires Total(ws) > 0 && i < |ws|
    ensures Pick(ws, next) == i <==> Cursor(ws, i) <= Slot(next, Total(ws)) < Cursor(ws, i + 1)
  {
    var p := Pick(ws, next);
    if p < i {
      CursorGrows(ws, p + 1, i);
    } else if i < p {
      CursorGrows(ws, i + 1, p);
    }
  }

  lemma PickRepeats(ws: seq<nat>, next: nat)
    requires Total(ws) > 0
    ensures Pick(ws, next + Total(ws)) == Pick(ws, next)
  {
    assert Slot(next + Total(ws), Total(ws)) == Slot(next, Total(ws));
  }

  datatype Policy = RoundRobin | WeightedRoundRobin | Random

  class LoadBalancer {
    const policy: Policy
    var next: nat

    constructor (policy: Policy)
      ensures this.policy == policy && next == 0
    {
      this.policy := policy;
      next := 0;
    }

    /** `dice` is the random source. */
    method Select(instances: seq<Instance>, dice: nat) returns (selected: Instance)
      modifies this`next
      ensures instances == [] ==> selected == Instance("", 0.0) && next == old(next)
      ensures instances != [] && policy == Random ==> selected in instances && next == old(next)
      ensures instances != [] && policy == WeightedRoundRobin ==>
                selected == instances[Pick(Weights(instances), old(next))] && next == old(next) + 1
      ensures instances != [] && policy == RoundRobin ==>
                selected == instances[old(next) % |instances|] && next == old(next) + 1
    {
      if |instances| == 0 {
        return Instance("", 0.0);
      }
      match policy {
        case Random =>
          selected := instances[dice % |instances|];
        case WeightedRoundRobin =>
          selected := SelectWeighted(instances);
        case RoundRobin =>
          selected := instances[next % |instances|];
          next := next + 1;
      }
    }

    /** The total is positive, and the second loop always returns: the fallback behind it is never reached. */
    method SelectWeighted(instances: seq<Instance>) returns (selected: Instance)
      requires instances != []
      modifies this`next
      ensures selected == instances[Pick(Weights(instances), old(next))] && next == old(next) + 1
    {
      var total := 0;
      for i := 0 to |instances|
        invariant total == Cursor(Weights(instances), i)
      {
        total := total + Weight(instances[i]);
      }
      var slot := next % total;
      SlotIsRemainder(next, total);
      next := next + 1;
      var cursor := 0;
      for i := 0 to |instances|
        invariant cursor == Cursor(Weights(instances), i) <= slot
        invariant next == old(next) + 1
      {
        cursor := cursor + Weight(instances[i]);
        if slot < cursor {
          PickIsUnique(Weights(instances), old(next), i);
          return instances[i];
        }
      }
      assert false;
    }
  }

  // ---- Proportions ----

  /** How many of the m numbers start, start + 1, ... are hits. */
  function Hits(hit: nat -> bool, start: nat, m: nat): nat {
    if m == 0 then 0 else Hits(hit, start, m - 1) + if hit(start + (m - 1)) then 1 else 0
  }

  /** The counters at which instance i is chosen. */
  function Chooses(ws: seq<nat>, i: nat): nat -> bool
    requires Total(ws) > 0
  {
    (next: nat) => Pick(ws, next) == i
  }

  /** How many of the m picks with counters start, start + 1, ... choose instance i. */
  function Picks(ws: seq<nat>, i: nat, start: nat, m: nat): nat
    requires Total(ws) > 0
  {
    Hits(Chooses(ws, i), start, m)
  }

  lemma {:induction false} HitsSplit(hit: nat -> bool, start: nat, a: nat, b: nat)
    ensures Hits(hit, start, a + b) == Hits(hit, start, a) + Hits(hit, start + a, b)
  {
    if b == 0 {
    } else {
      HitsSplit(hit, start, a, b - 1);
      assert start + (a + b - 1) == start + a + (b - 1);
    }
  }

  /** Moving the window by one drops its first number and adds the one behind its last. */
  lemma HitsSlide(hit: nat -> bool, start: nat, m: nat)
    ensures Hits(hit, start + 1, m) + (if hit(start) then 1 else 0) ==
            Hits(hit, start, m) + if hit(start + m) then 1 else 0
  {
    HitsSplit(hit, start, 1, m);
    assert Hits(hit, start, 1) == Hits(hit, start, 0) + if hit(start) then 1 else 0;
    assert Hits(hit, start, m + 1) == Hits(hit, start, m) + if hit(start + m) then 1 else 0;
  }

  // The arithmetic of quotients, kept apart from everything else.

  lemma Distributes(p: int, q: int, w: int)
    ensures (p - q) * w == p * w - q * w
  {
  }

  lemma MultipleIsAtLeast(z: int, w: nat)
    requires z >= 1
    ensures z * w >= w
  {
    Distributes(z, 1, w);
    NonNegativeProduct(z - 1, w);
  }

  lemma NonNegativeProduct(x: nat, y: nat)
    ensures x * y >= 0
  {
  }

  lemma DivisionIdentity(x: nat, w: nat)
    requires w > 0
    ensures x == (x / w) * w + x % w && x / w >= 0
  {
  }

  lemma DivisionIsUnique(x: nat, w: nat, q: nat, r: nat)
    requires w > 0 && x == q * w + r && r < w
    ensures x / w == q && x % w == r
  {
    DivisionIdentity(x, w);
    var p := x / w;
    Distributes(p, q, w);
    Distributes(q, p, w);
    if p > q {
      MultipleIsAtLeast(p - q, w);
    } else if q > p {
      MultipleIsAtLeast(q - p, w);
    }
  }

  lemma {:induction false} SlotIsRemainder(next: nat, w: nat)
    requires w > 0
    ensures Slot(next, w) == next % w
    decreases next
  {
    if next < w {
      DivisionIsUnique(next, w, 0, next);
    } else {
      SlotIsRemainder(next - w, w);
      DivisionIdentity(next - w, w);
      var q := (next - w) / w;
      Distributes(q + 1, 1, w);
      DivisionIsUnique(next, w, q + 1, (next - w) % w);
    }
  }

  lemma CeilingOfQuotient(m: nat, w: nat)
    requires w > 0
    ensures (m + w - 1) / w == m / w + if m % w == 0 then 0 else 1
  {
    DivisionIdentity(m, w);
    var q, r := m / w, m % w;
    Distributes(q + 1, 1, w);
    if r == 0 {
      DivisionIsUnique(m + w - 1, w, q, w - 1);
    } else {
      DivisionIsUnique(m + w - 1, w, q + 1, r - 1);
    }
  }

  /** In the first cycle instance i is chosen in its own slots. */
  lemma {:induction false} FirstCycle(ws: seq<nat>, i: nat, m: nat)
    requires i < |ws| && 0 < Total(ws) && m <= Total(ws)
    ensures var lo, hi := Cursor(ws, i), Cursor(ws, i + 1);
            Picks(ws, i, 0, m) == if m <= lo then 0 else if m <= hi then m - lo else hi - lo
  {
    if m == 0 {
    } else {
      FirstCycle(ws, i, m - 1);
      PickIsUnique(ws, m - 1, i);
    }
  }

  /** Any W consecutive picks, W the total weight, choose instance i exactly its weight times, whatever the counter
      starts from. */
  lemma {:induction false} CycleIsProportional(ws: seq<nat>, i: nat, start: nat)
    requires i < |ws| && 0 < Total(ws)
    ensures Picks(ws, i, start, Total(ws)) == ws[i]
  {
    if start == 0 {
      CursorGrows(ws, i + 1, |ws|);
      FirstCycle(ws, i, Total(ws));
    } else {
      CycleIsProportional(ws, i, start - 1);
      HitsSlide(Chooses(ws, i), start - 1, Total(ws));
      PickRepeats(ws, start - 1);
    }
  }

  /** q times n, by addition (TimesIsProduct). */
  function Times(q: nat, n: nat): nat {
    if q == 0 then 0 else Times(q - 1, n) + n
  }

  lemma {:induction false} TimesIsProduct(q: nat, n: nat)
    ensures Times(q, n) == q * n
  {
    if q == 0 {
    } else {
      TimesIsProduct(q - 1, n);
      Distributes(q, 1, n);
    }
  }

  /** Every window of w numbers holds `share` hits. */
  ghost predicate Even(hit: nat -> bool, w: nat, share: nat) {
    forall start: nat :: Hits(hit, start, w) == share
  }

  lemma {:induction false} WholeCycles(hit: nat -> bool, w: nat, share: nat, start: nat, q: nat)
    requires Even(hit, w, share)
    ensures Hits(hit, start, Times(q, w)) == Times(q, share)
  {
    if q == 0 {
    } else {
      WholeCycles(hit, w, share, start, q - 1);
      HitsSplit(hit, start, Times(q - 1, w), w);
    }
  }

  lemma PartOfCycle(hit: nat -> bool, w: nat, share: nat, start: nat, r: nat)
    requires Even(hit, w, share) && r <= w
    ensures Hits(hit, start, r) <= if r == 0 then 0 else share
  {
    HitsSplit(hit, start, r, w - r);
  }

  /** m numbers are q whole cycles and part of another. */
  lemma CyclesAndRest(hit: nat -> bool, w: nat, share: nat, start: nat, q: nat, r: nat)
    requires Even(hit, w, share) && r < w
    ensures Times(q, share) <= Hits(hit, start, Times(q, w) + r) <= Times(if r == 0 then q else q + 1, share)
  {
    WholeCycles(hit, w, share, start, q);
    HitsSplit(hit, start, Times(q, w), r);
    PartOfCycle(hit, w, share, start + Times(q, w), r);
  }

  /** Any m consecutive picks choose instance i between floor(m / W) and ceil(m / W) times its weight. */
  lemma PicksAreProportional(ws: seq<nat>, i: nat, start: nat, m: nat)
    requires i < |ws| && 0 < Total(ws)
    ensures (m / Total(ws)) * ws[i] <= Picks(ws, i, start, m) <= ((m + Total(ws) - 1) / Total(ws)) * ws[i]
  {
    forall s: nat ensures Hits(Chooses(ws, i), s, Total(ws)) == ws[i] {
      CycleIsProportional(ws, i, s);
    }
    DivisionIdentity(m, Total(ws));
    CeilingOfQuotient(m, Total(ws));
    TimesIsProduct(m / Total(ws), Total(ws));
    TimesIsProduct(m / Total(ws), ws[i]);
    TimesIsProduct((m + Total(ws) - 1) / Total(ws), ws[i]);
    CyclesAndRest(Chooses(ws, i), Total(ws), ws[i], start, m / Total(ws), m % Total(ws));
  }

  /** Plain round robin is the case of equal weights: any n consecutive picks of n instances choose each once. */
  lemma RoundRobinIsWeighted(ws: seq<nat>, next: nat)
    requires ws != [] && forall j :: 0 <= j < |ws| ==> ws[j] == 1
    ensures Total(ws) == |ws| && Pick(ws, next) == next % |ws|
  {
    UnitCursor(ws, |ws|);
    SlotIsRemainder(next, |ws|);
    UnitCursor(ws, Pick(ws, next));
    UnitCursor(ws, Pick(ws, next) + 1);
  }

  lemma {:induction false} UnitCursor(ws: seq<nat>, n: nat)
    requires n <= |ws| && forall j :: 0 <= j < |ws| ==> ws[j] == 1
    ensures Cursor(ws, n) == n
  {
    if n == 0 {
    } else {
      UnitCursor(ws, n - 1);
    }
  }
}
