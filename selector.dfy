/** Weighted cumulative selection of `fast_abtest/variant_selector.py`. The
    draw `randint(1, 100)` is the parameter `r`; selection is then a scan over
    the variants in registration order with a running sum of the shares of the
    active ones. */
module Selection {
  import opened Breaker

  /** What selection needs to know of one registered variant. */
  datatype Slot = Slot(share: int, active: bool)

  /** The outcome of a selection: the main scenario, or the registered
      variant at `index`. */
  datatype Choice = Main | Picked(index: nat)

  /** The shares of the active slots among the first `n`. */
  function ActiveSum(slots: seq<Slot>, n: nat): int
    requires n <= |slots|
  {
    if n == 0 then 0
    else ActiveSum(slots, n - 1) + (if slots[n - 1].active then slots[n - 1].share else 0)
  }

  /** Slot `k` captures draw `r`: it is active and the running sum reaches `r`
      once its share is added. */
  predicate Hit(slots: seq<Slot>, k: nat, r: int)
    requires k < |slots|
  {
    slots[k].active && r <= ActiveSum(slots, k + 1)
  }

  function PickFrom(slots: seq<Slot>, r: int, i: nat): (c: Choice)
    requires i <= |slots|
    ensures c.Picked? ==> i <= c.index < |slots|
    decreases |slots| - i
  {
    if i == |slots| then Main
    else if Hit(slots, i, r) then Picked(i)
    else PickFrom(slots, r, i + 1)
  }

  /** The choice `_random_select` makes for the draw `r`. */
  function Pick(slots: seq<Slot>, r: int): (c: Choice)
    ensures c.Picked? ==> c.index < |slots|
  {
    PickFrom(slots, r, 0)
  }

  lemma {:induction false} PickFromIsFirstHit(slots: seq<Slot>, r: int, i: nat)
    requires i <= |slots|
    ensures PickFrom(slots, r, i).Picked? ==>
              var k := PickFrom(slots, r, i).index;
              Hit(slots, k, r) && forall j :: i <= j < k ==> !Hit(slots, j, r)
    ensures PickFrom(slots, r, i).Main? ==> forall j :: i <= j < |slots| ==> !Hit(slots, j, r)
    decreases |slots| - i
  {
    if i < |slots| && !Hit(slots, i, r) {
      PickFromIsFirstHit(slots, r, i + 1);
    }
  }

  /** Selection picks the first active variant, in list order, whose
      cumulative active share reaches the draw, and the main scenario when
      there is none. */
  lemma PickIsFirstHit(slots: seq<Slot>, r: int)
    ensures forall k :: 0 <= k < |slots| ==>
              (Pick(slots, r) == Picked(k) <==>
                 Hit(slots, k, r) && forall j :: 0 <= j < k ==> !Hit(slots, j, r))
    ensures Pick(slots, r) == Main <==> forall j :: 0 <= j < |slots| ==> !Hit(slots, j, r)
  {
    PickFromIsFirstHit(slots, r, 0);
  }

  /** An inactive variant is never picked. */
  lemma InactiveNeverPicked(slots: seq<Slot>, r: int, k: nat)
    requires k < |slots| && !slots[k].active
    ensures Pick(slots, r) != Picked(k)
  {
    PickIsFirstHit(slots, r);
  }

  /** Every active share is non-negative (registered shares are in [1, 99]). */
  predicate NonNegative(slots: seq<Slot>)
  {
    forall i :: 0 <= i < |slots| && slots[i].active ==> slots[i].share >= 0
  }

  lemma {:induction false} ActiveSumMonotone(slots: seq<Slot>, m: nat, n: nat)
    requires NonNegative(slots)
    requires m <= n <= |slots|
    ensures ActiveSum(slots, m) <= ActiveSum(slots, n)
    decreases n - m
  {
    if m < n {
      ActiveSumMonotone(slots, m, n - 1);
    }
  }

  /** If the running sum reaches a positive draw within the first `n` slots,
      one of them captures it. */
  lemma {:induction false} SomeHitBelow(slots: seq<Slot>, n: nat, r: int)
    requires n <= |slots| && r >= 1
    requires ActiveSum(slots, n) >= r
    ensures exists j :: 0 <= j < n && Hit(slots, j, r)
  {
    if ActiveSum(slots, n - 1) >= r {
      SomeHitBelow(slots, n - 1, r);
      var j :| 0 <= j < n - 1 && Hit(slots, j, r);
      assert 0 <= j < n && Hit(slots, j, r);
    } else {
      assert Hit(slots, n - 1, r);
    }
  }

  /** With non-negative shares, variant `k` is picked exactly for the draws in
      the half-open interval its share occupies in the running sum. */
  lemma PickInterval(slots: seq<Slot>, r: int, k: nat)
    requires NonNegative(slots) && r >= 1 && k < |slots|
    ensures Pick(slots, r) == Picked(k) <==>
              slots[k].active && ActiveSum(slots, k) < r <= ActiveSum(slots, k + 1)
  {
    PickIsFirstHit(slots, r);
    if Pick(slots, r) == Picked(k) && ActiveSum(slots, k) >= r {
      SomeHitBelow(slots, k, r);
      assert false;
    }
    if slots[k].active && ActiveSum(slots, k) < r <= ActiveSum(slots, k + 1) {
      forall j | 0 <= j < k ensures !Hit(slots, j, r) {
        ActiveSumMonotone(slots, j + 1, k);
      }
    }
  }

  /** With non-negative shares, the main scenario gets exactly the draws
      beyond the total active share. */
  lemma PickMainInterval(slots: seq<Slot>, r: int)
    requires NonNegative(slots) && r >= 1
    ensures Pick(slots, r) == Main <==> r > ActiveSum(slots, |slots|)
  {
    PickIsFirstHit(slots, r);
    if r <= ActiveSum(slots, |slots|) {
      SomeHitBelow(slots, |slots|, r);
    } else {
      forall j | 0 <= j < |slots| ensures !Hit(slots, j, r) {
        ActiveSumMonotone(slots, j + 1, |slots|);
      }
    }
  }

  /** The number of draws among 1..n that select `c`. */
  function Tally(slots: seq<Slot>, c: Choice, n: nat): nat
  {
    if n == 0 then 0 else Tally(slots, c, n - 1) + (if Pick(slots, n) == c then 1 else 0)
  }

  function Min(a: int, b: int): int { if a <= b then a else b }

  /** A choice made exactly for the draws in (lo, hi] is made
      min(n, hi) - min(n, lo) times among the draws 1..n. */
  lemma {:induction false} TallyInterval(slots: seq<Slot>, c: Choice, n: nat, lo: int, hi: int)
    requires 0 <= lo <= hi
    requires forall r :: 1 <= r <= n ==> (Pick(slots, r) == c <==> lo < r <= hi)
    ensures Tally(slots, c, n) == Min(n, hi) - Min(n, lo)
  {
    if n > 0 {
      TallyInterval(slots, c, n - 1, lo, hi);
    }
  }

  /** The exact form of the distribution law: when the active shares are
      non-negative and sum to at most 100, among the 100 possible draws each
      active variant is picked exactly its share of times, an inactive one
      never, and the main scenario the remaining 100 - sum times. */
  lemma Distribution(slots: seq<Slot>)
    requires NonNegative(slots) && ActiveSum(slots, |slots|) <= 100
    ensures forall k :: 0 <= k < |slots| ==>
              Tally(slots, Picked(k), 100) == if slots[k].active then slots[k].share else 0
    ensures Tally(slots, Main, 100) == 100 - ActiveSum(slots, |slots|)
  {
    forall k | 0 <= k < |slots|
      ensures Tally(slots, Picked(k), 100) == if slots[k].active then slots[k].share else 0
    {
      ActiveSumMonotone(slots, k, k + 1);
      ActiveSumMonotone(slots, k + 1, |slots|);
      ActiveSumMonotone(slots, 0, k);
      forall r | 1 <= r <= 100
        ensures Pick(slots, r) == Picked(k) <==>
                  ActiveSum(slots, k) < r <= ActiveSum(slots, k + 1)
      {
        PickInterval(slots, r, k);
      }
      TallyInterval(slots, Picked(k), 100, ActiveSum(slots, k), ActiveSum(slots, k + 1));
    }
    ActiveSumMonotone(slots, 0, |slots|);
    forall r | 1 <= r <= 100
      ensures Pick(slots, r) == Main <==> ActiveSum(slots, |slots|) < r <= 100
    {
      PickMainInterval(slots, r);
    }
    TallyInterval(slots, Main, 100, ActiveSum(slots, |slots|), 100);
  }

  /** The shares and active flags of a list of variants, in order. */
  function Slots(vs: seq<Variant>): (s: seq<Slot>)
    reads set v | v in vs
    ensures |s| == |vs|
    ensures forall i :: 0 <= i < |vs| ==> s[i] == Slot(vs[i].trafficPercent, vs[i].isActive)
  {
    if vs == [] then [] else [Slot(vs[0].trafficPercent, vs[0].isActive)] + Slots(vs[1..])
  }

  /** `VariantSelector`: the main scenario, the registered variants in
      registration order, and the idempotent switch. */
  class VariantSelector {
    const mainScenario: Variant
    const variants: seq<Variant>
    const idempotent: bool

    constructor (mainScenario: Variant, variants: seq<Variant>, idempotent: bool := false)
      ensures this.mainScenario == mainScenario && this.variants == variants
      ensures this.idempotent == idempotent
    {
      this.mainScenario := mainScenario;
      this.variants := variants;
      this.idempotent := idempotent;
    }

    /** The variant object a choice stands for. */
    function Chosen(c: Choice): Variant
      requires c.Picked? ==> c.index < |variants|
    {
      if c.Main? then mainScenario else variants[c.index]
    }

    /** Selection in idempotent mode: always the main scenario. */
    method IdempotentSelect() returns (chosen: Variant)
      ensures chosen == mainScenario
    {
      chosen := mainScenario;
    }

    /** Weighted selection for the draw `r`: skips inactive variants, picks the
        first whose running active sum reaches `r` and counts a call on it;
        falls back to the main scenario, whose counters it leaves alone. */
    method RandomSelect(r: int) returns (chosen: Variant)
      requires 1 <= r <= 100
      modifies set v | v in variants
      ensures chosen == Chosen(Pick(old(Slots(variants)), r))
      ensures Pick(old(Slots(variants)), r).Picked? ==>
                chosen.State() == Step(old(chosen.State()), Routed, chosen.threshold)
                && chosen.trafficPercent == old(chosen.trafficPercent)
                && chosen.threshold == old(chosen.threshold)
      ensures forall v :: v in variants && (Pick(old(Slots(variants)), r).Main? || v != chosen) ==>
                unchanged(v)
      ensures Pick(old(Slots(variants)), r).Main? ==> unchanged(mainScenario)
    {
      ghost var slots := Slots(variants);
      var current := 0;
      for i := 0 to |variants|
        invariant current == ActiveSum(slots, i)
        invariant Pick(slots, r) == PickFrom(slots, r, i)
      {
        var variant := variants[i];
        if !variant.isActive {
          continue;
        }
        current := current + variant.trafficPercent;
        if r <= current {
          assert PickFrom(slots, r, i) == Picked(i);
          variant.IncrementCall();
          return variant;
        }
      }
      return mainScenario;
    }

    /** `select`: the main scenario in idempotent mode, weighted selection
        otherwise. */
    method Select(r: int) returns (chosen: Variant)
      requires 1 <= r <= 100
      modifies set v | v in variants
      ensures idempotent ==> chosen == mainScenario && forall v :: v in variants ==> unchanged(v)
      ensures !idempotent ==> chosen == Chosen(Pick(old(Slots(variants)), r))
      ensures !idempotent && Pick(old(Slots(variants)), r).Picked? ==>
                chosen.State() == Step(old(chosen.State()), Routed, chosen.threshold)
                && chosen.trafficPercent == old(chosen.trafficPercent)
                && chosen.threshold == old(chosen.threshold)
      ensures forall v :: v in variants && (idempotent || Pick(old(Slots(variants)), r).Main? || v != chosen) ==>
                unchanged(v)
      ensures (idempotent || Pick(old(Slots(variants)), r).Main?) ==> unchanged(mainScenario)
    {
      if idempotent {
        chosen := IdempotentSelect();
      } else {
        chosen := RandomSelect(r);
      }
    }
  }
}
