/** `fast_abtest/registred_scenario.py`: the registry of one decorated
    handler. Variants are kept in a dictionary keyed "V0", "V1", ... in
    registration order; registering one takes its share from the main
    scenario. Calling the registry routes to a handler by cumulative share. */
module Registry {
  import opened Errors
  import opened Decimal
  import opened Selection
  import Breaker

  /** The key under which the `n`-th registered variant is stored. */
  function VariantKey(n: nat): string
  {
    "V" + Digits(n)
  }

  /** Keys of different positions differ, so no registration overwrites
      another. */
  lemma VariantKeyInjective(a: nat, b: nat)
    requires VariantKey(a) == VariantKey(b)
    ensures a == b
  {
    assert VariantKey(a)[1..] == Digits(a);
    assert VariantKey(b)[1..] == Digits(b);
    DigitsInjective(a, b);
  }

  /** A registered `_ScenarioVariant` of this file: a handler and its share.
      Nothing in the file changes one after it is stored. */
  datatype Entry = Entry(handler: Breaker.HandlerId, trafficPercent: int)

  /** The main scenario, whose share registration lowers in place. */
  class Scenario {
    const handler: Breaker.HandlerId
    var trafficPercent: int

    constructor (handler: Breaker.HandlerId, trafficPercent: int)
      ensures this.handler == handler && this.trafficPercent == trafficPercent
    {
      this.handler := handler;
      this.trafficPercent := trafficPercent;
    }
  }

  /** The `add_to_variants` decorator that `register_variant` returns, with
      the share it captured. */
  datatype Registration = Registration(trafficPercent: int)

  /** `register_variant`: accepts a share in [1, 99] and returns the
      decorator that will add the variant; any other share raises, and
      nothing is registered either way. */
  function RegisterVariant(trafficPercent: int): (res: Result<Registration>)
    ensures res.Ok? <==> 1 <= trafficPercent <= 99
    ensures res.Ok? ==> res.value.trafficPercent == trafficPercent
    ensures res.Raised? ==> res.error == ValueError("traffic_percent must be between 1 and 99")
  {
    if 1 <= trafficPercent <= 99 then Ok(Registration(trafficPercent))
    else Raised(ValueError("traffic_percent must be between 1 and 99"))
  }

  function Sum(xs: seq<int>): int
  {
    if xs == [] then 0 else Sum(xs[..|xs| - 1]) + xs[|xs| - 1]
  }

  lemma SumSnoc(xs: seq<int>, x: int)
    ensures Sum(xs + [x]) == Sum(xs) + x
  {
    assert (xs + [x])[..|xs|] == xs;
  }

  /** Variant `k` captures draw `r` when the running sum of the shares up to
      and including its own reaches `r`. */
  predicate Reached(shares: seq<int>, k: nat, r: int)
    requires k < |shares|
  {
    r <= Sum(shares[..k + 1])
  }

  function RouteFrom(shares: seq<int>, r: int, i: nat): (c: Choice)
    requires i <= |shares|
    ensures c.Picked? ==> i <= c.index < |shares|
    decreases |shares| - i
  {
    if i == |shares| then Main
    else if Reached(shares, i, r) then Picked(i)
    else RouteFrom(shares, r, i + 1)
  }

  /** The choice `__call__` makes for the draw `r`: no active flags, every
      registered share counts. */
  function Route(shares: seq<int>, r: int): (c: Choice)
    ensures c.Picked? ==> c.index < |shares|
  {
    RouteFrom(shares, r, 0)
  }

  lemma {:induction false} RouteFromIsFirstReach(shares: seq<int>, r: int, i: nat)
    requires i <= |shares|
    ensures RouteFrom(shares, r, i).Picked? ==>
              var k := RouteFrom(shares, r, i).index;
              Reached(shares, k, r) && forall j :: i <= j < k ==> !Reached(shares, j, r)
    ensures RouteFrom(shares, r, i).Main? ==> forall j :: i <= j < |shares| ==> !Reached(shares, j, r)
    decreases |shares| - i
  {
    if i < |shares| && !Reached(shares, i, r) {
      RouteFromIsFirstReach(shares, r, i + 1);
    }
  }

  /** `__call__` dispatches to the first variant, in insertion order, whose
      cumulative share reaches the draw, and otherwise to the main handler;
      with no variants it always picks the main handler. */
  lemma RouteIsFirstReach(shares: seq<int>, r: int)
    ensures forall k :: 0 <= k < |shares| ==>
              (Route(shares, r) == Picked(k) <==>
                 Reached(shares, k, r) && forall j :: 0 <= j < k ==> !Reached(shares, j, r))
    ensures Route(shares, r) == Main <==> forall j :: 0 <= j < |shares| ==> !Reached(shares, j, r)
  {
    RouteFromIsFirstReach(shares, r, 0);
  }

  /** The shares as selector slots that are all active. */
  function AllActive(shares: seq<int>): (slots: seq<Slot>)
    ensures |slots| == |shares|
    ensures forall i :: 0 <= i < |shares| ==> slots[i] == Slot(shares[i], true)
  {
    seq(|shares|, i requires 0 <= i < |shares| => Slot(shares[i], true))
  }

  lemma {:induction false} ActiveSumAllActive(shares: seq<int>, n: nat)
    requires n <= |shares|
    ensures ActiveSum(AllActive(shares), n) == Sum(shares[..n])
  {
    if n > 0 {
      ActiveSumAllActive(shares, n - 1);
      assert shares[..n] == shares[..n - 1] + [shares[n - 1]];
      SumSnoc(shares[..n - 1], shares[n - 1]);
    }
  }

  lemma {:induction false} RouteFromIsPickFrom(shares: seq<int>, r: int, i: nat)
    requires i <= |shares|
    ensures RouteFrom(shares, r, i) == PickFrom(AllActive(shares), r, i)
    decreases |shares| - i
  {
    if i < |shares| {
      ActiveSumAllActive(shares, i + 1);
      RouteFromIsPickFrom(shares, r, i + 1);
    }
  }

  /** The older selection of this file is the selector's weighted selection
      with every variant active. */
  lemma RouteIsPick(shares: seq<int>, r: int)
    ensures Route(shares, r) == Pick(AllActive(shares), r)
  {
    RouteFromIsPickFrom(shares, r, 0);
  }

  /** The distribution law for `__call__`: with non-negative shares summing
      to at most 100, among the 100 draws each variant is chosen exactly its
      share of times and the main handler 100 - sum times. */
  lemma RouteDistribution(shares: seq<int>)
    requires forall i :: 0 <= i < |shares| ==> shares[i] >= 0
    requires Sum(shares) <= 100
    ensures forall r :: Route(shares, r) == Pick(AllActive(shares), r)
    ensures forall k :: 0 <= k < |shares| ==> Tally(AllActive(shares), Picked(k), 100) == shares[k]
    ensures Tally(AllActive(shares), Main, 100) == 100 - Sum(shares)
  {
    forall r ensures Route(shares, r) == Pick(AllActive(shares), r) {
      RouteIsPick(shares, r);
    }
    ActiveSumAllActive(shares, |shares|);
    assert shares[..|shares|] == shares;
    Distribution(AllActive(shares));
  }

  /** tests/decorator.py, test_traffic_distribution: one variant at 30%
      gets 30 of the 100 draws, the main handler 70. */
  lemma OneVariantAtThirty()
    ensures Tally(AllActive([30]), Picked(0), 100) == 30
    ensures Tally(AllActive([30]), Main, 100) == 70
  {
    assert Sum([30]) == 30;
    RouteDistribution([30]);
  }

  /** tests/decorator.py, test_multiple_variants: variants at 20% and 30%
      get 20 and 30 of the 100 draws, the main handler 50. */
  lemma TwoVariantsAtTwentyAndThirty()
    ensures Tally(AllActive([20, 30]), Picked(0), 100) == 20
    ensures Tally(AllActive([20, 30]), Picked(1), 100) == 30
    ensures Tally(AllActive([20, 30]), Main, 100) == 50
  {
    assert [20, 30][..1] == [20];
    assert Sum([20, 30]) == 50;
    RouteDistribution([20, 30]);
  }

  /** The shares of the entries stored under `keys`, in that order. */
  function SharesOf(keys: seq<string>, entries: map<string, Entry>): (s: seq<int>)
    requires forall k :: k in keys ==> k in entries
    ensures |s| == |keys|
    ensures forall i :: 0 <= i < |keys| ==> s[i] == entries[keys[i]].trafficPercent
  {
    if keys == [] then []
    else SharesOf(keys[..|keys| - 1], entries) + [entries[keys[|keys| - 1]].trafficPercent]
  }

  /** Storing one more entry under a new key extends the shares by its
      share. */
  lemma SharesOfSnoc(keys: seq<string>, entries: map<string, Entry>, name: string, e: Entry)
    requires forall k :: k in keys ==> k in entries
    requires name !in keys
    ensures SharesOf(keys + [name], entries[name := e]) == SharesOf(keys, entries) + [e.trafficPercent]
  {
    var extended := SharesOf(keys + [name], entries[name := e]);
    forall i | 0 <= i < |keys| ensures extended[i] == SharesOf(keys, entries)[i] {
      assert (keys + [name])[i] == keys[i];
    }
  }

  /** The first `n` keys in insertion order: "V0", "V1", ... */
  function Keys(n: nat): (ks: seq<string>)
    ensures |ks| == n
  {
    if n == 0 then [] else Keys(n - 1) + [VariantKey(n - 1)]
  }

  /** The `i`-th of the first `n` keys is "V" followed by `i`. */
  lemma {:induction false} KeysAt(n: nat, i: nat)
    requires i < n
    ensures Keys(n)[i] == VariantKey(i)
  {
    if i < n - 1 {
      KeysAt(n - 1, i);
    }
  }

  /** The dictionary holds exactly the keys in `keys`, and the `i`-th key
      inserted is "V" followed by `i`. */
  ghost predicate Indexed(keys: seq<string>, entries: map<string, Entry>)
  {
    && keys == Keys(|keys|)
    && (forall k :: k in entries <==> k in keys)
  }

  /** The next key "V{n}", `n` being the number of keys so far, is not yet
      stored. */
  lemma NextKeyFresh(keys: seq<string>, entries: map<string, Entry>)
    requires Indexed(keys, entries)
    ensures VariantKey(|keys|) !in entries
  {
    if VariantKey(|keys|) in entries {
      var i :| 0 <= i < |keys| && keys[i] == VariantKey(|keys|);
      KeysAt(|keys|, i);
      VariantKeyInjective(i, |keys|);
    }
  }

  /** Storing an entry under the next key keeps the keys indexed. */
  lemma NextKeyIndexed(keys: seq<string>, entries: map<string, Entry>, e: Entry)
    requires Indexed(keys, entries)
    ensures Indexed(keys + [VariantKey(|keys|)], entries[VariantKey(|keys|) := e])
  {
    var keys' := keys + [VariantKey(|keys|)];
    assert Keys(|keys'|) == Keys(|keys|) + [VariantKey(|keys|)];
    forall k
      ensures k in entries[VariantKey(|keys|) := e] <==> k in keys'
    {
      assert k in keys' <==> k in keys || k == VariantKey(|keys|);
    }
  }

  /** The next key is not yet stored; storing an entry under it keeps the
      keys indexed, extends the shares by the entry's and the sum of the
      shares by its share. */
  lemma InsertNext(keys: seq<string>, entries: map<string, Entry>, e: Entry)
    requires Indexed(keys, entries)
    ensures VariantKey(|keys|) !in entries
    ensures Indexed(keys + [VariantKey(|keys|)], entries[VariantKey(|keys|) := e])
    ensures SharesOf(keys + [VariantKey(|keys|)], entries[VariantKey(|keys|) := e])
            == SharesOf(keys, entries) + [e.trafficPercent]
    ensures Sum(SharesOf(keys + [VariantKey(|keys|)], entries[VariantKey(|keys|) := e]))
            == Sum(SharesOf(keys, entries)) + e.trafficPercent
  {
    NextKeyFresh(keys, entries);
    NextKeyIndexed(keys, entries, e);
    SharesOfSnoc(keys, entries, VariantKey(|keys|), e);
    SumSnoc(SharesOf(keys, entries), e.trafficPercent);
  }

  /** `RegisteredScenario`: the main scenario and the variants dictionary,
      whose insertion order is kept in `order`. */
  class RegisteredScenario {
    const mainScenario: Scenario
    var variants: map<string, Entry>
    var order: seq<string>

    ghost predicate Valid()
      reads this
    {
      Indexed(order, variants)
    }

    /** The registered shares in insertion order. */
    function Shares(): seq<int>
      reads this
      requires Valid()
    {
      SharesOf(order, variants)
    }

    /** The handler a choice dispatches to. */
    function HandlerOf(c: Choice): Breaker.HandlerId
      reads this
      requires Valid()
      requires c.Picked? ==> c.index < |order|
    {
      if c.Main? then mainScenario.handler else variants[order[c.index]].handler
    }

    /** Shares are conserved: the main share and the registered shares add
        up to 100. */
    ghost predicate Conserved()
      reads this, mainScenario
      requires Valid()
    {
      mainScenario.trafficPercent + Sum(Shares()) == 100
    }

    constructor (mainScenario: Scenario)
      ensures Valid() && variants == map[] && order == []
      ensures this.mainScenario == mainScenario
      ensures Conserved() <==> mainScenario.trafficPercent == 100
    {
      this.mainScenario := mainScenario;
      variants := map[];
      order := [];
    }

    /** `add_to_variants`: stores the handler under the next key, lowers the
        main share by the captured share and only then raises if the main
        share went negative; the variant stays registered and the main share
        stays negative in that case. */
    method AddToVariants(registration: Registration, handler: Breaker.HandlerId)
      returns (res: Result<Breaker.HandlerId>)
      requires Valid()
      modifies this, mainScenario
      ensures Valid()
      ensures VariantKey(|old(order)|) !in old(variants)
      ensures order == old(order) + [VariantKey(|old(order)|)]
      ensures variants == old(variants)[VariantKey(|old(order)|) := Entry(handler, registration.trafficPercent)]
      ensures Shares() == old(Shares()) + [registration.trafficPercent]
      ensures mainScenario.trafficPercent == old(mainScenario.trafficPercent) - registration.trafficPercent
      ensures res.Raised? <==> mainScenario.trafficPercent < 0
      ensures res.Raised? ==> res.error == ValueError("Total traffic percentage exceeds 100")
      ensures res.Ok? ==> res.value == handler
      ensures old(Conserved()) ==> Conserved()
    {
      var name := VariantKey(|order|);
      var entry := Entry(handler, registration.trafficPercent);
      InsertNext(order, variants, entry);
      variants := variants[name := entry];
      order := order + [name];
      mainScenario.trafficPercent := mainScenario.trafficPercent - registration.trafficPercent;
      if mainScenario.trafficPercent < 0 {
        return Raised(ValueError("Total traffic percentage exceeds 100"));
      }
      return Ok(handler);
    }

    /** `__call__` for the draw `r`: runs the handler `Route` chooses on the
        arguments and returns its result; the registry is not changed. */
    method Call<A, R>(r: int, args: A, invoke: (Breaker.HandlerId, A) -> R) returns (result: R)
      requires Valid() && 1 <= r <= 100
      ensures result == invoke(HandlerOf(Route(Shares(), r)), args)
    {
      ghost var shares := Shares();
      var current := 0;
      for i := 0 to |order|
        invariant current == Sum(shares[..i])
        invariant Route(shares, r) == RouteFrom(shares, r, i)
      {
        var variant := variants[order[i]];
        assert shares[..i + 1] == shares[..i] + [variant.trafficPercent];
        SumSnoc(shares[..i], variant.trafficPercent);
        current := current + variant.trafficPercent;
        if r <= current {
          assert RouteFrom(shares, r, i) == Picked(i);
          return invoke(variant.handler, args);
        }
      }
      return invoke(mainScenario.handler, args);
    }
  }

  /** tests/decorator.py, test_traffic_distribution_validation: shares 50
      then 60 from a main share of 100. The second registration raises, and
      as the code is written both variants are then registered and the main
      share is -10. */
  method OverflowExample() returns (raised: bool, registered: nat, mainShare: int, conserved: bool)
    ensures raised && registered == 2 && mainShare == -10 && conserved
  {
    var main := new Scenario("func", 100);
    var registry := new RegisteredScenario(main);
    var first := RegisterVariant(50);
    var added := registry.AddToVariants(first.value, "func_b");
    var second := RegisterVariant(60);
    added := registry.AddToVariants(second.value, "func_c");
    raised := added.Raised?;
    registered := |registry.order|;
    mainShare := main.trafficPercent;
    conserved := main.trafficPercent + registry.variants[VariantKey(0)].trafficPercent
                 + registry.variants[VariantKey(1)].trafficPercent == 100;
  }
}
