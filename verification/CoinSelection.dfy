/** Choosing the coins of a silent payment spend. */
module CoinSelection {
  import opened Wrappers
  import opened Words

  datatype Coin = Coin(id: nat, amount: nat)

  const INPUT_WEIGHT: nat := (36 + 4 + 1) * 4 + 1 + 1 + 64
  const OVERHEAD_WEIGHT: nat := (4 + 4 + 1 + 1 + 43 + 31) * 4 + 2

  datatype Failure = Overflow | Worthless | Short(total: nat, coins: nat, needed: nat)

  /** A rate in satoshis per thousand weight units, rounded up. */
  function Fee(rate: nat, weight: nat): nat { (rate * weight + 999) / 1000 }

  /** What `n` inputs must cover: the payment and the fee. */
  function Needed(target: nat, rate: nat, n: nat): nat
  { target + Fee(rate, OVERHEAD_WEIGHT + INPUT_WEIGHT * n) }

  function Total(coins: seq<Coin>): nat
  { if coins == [] then 0 else Total(coins[..|coins| - 1]) + coins[|coins| - 1].amount }

  predicate Economic(coin: Coin, rate: nat) { coin.amount > Fee(rate, INPUT_WEIGHT) }

  function AllEconomic(coins: seq<Coin>, rate: nat): (r: seq<Coin>)
    ensures |r| <= |coins|
  {
    if coins == [] then [] else
    var most := AllEconomic(coins[..|coins| - 1], rate);
    if Economic(coins[|coins| - 1], rate) then most + [coins[|coins| - 1]] else most
  }

  predicate Covers(coins: seq<Coin>, target: nat, rate: nat)
  { Total(coins) >= Needed(target, rate, |coins|) }

  /** The economic coins a call looks at. */
  function Considered(candidates: seq<Coin>, rate: nat, maxInputs: nat): seq<Coin>
  {
    var economic := AllEconomic(candidates, rate);
    if |economic| <= maxInputs then economic else economic[..maxInputs]
  }

  ghost predicate ShortestPrefix(coins: seq<Coin>, n: nat, target: nat, rate: nat)
  {
    && 1 <= n <= |coins| && Covers(coins[..n], target, rate)
    && forall j :: 1 <= j < n ==> !Covers(coins[..j], target, rate)
  }

  ghost predicate NoneCovers(coins: seq<Coin>, n: nat, target: nat, rate: nat)
    requires n <= |coins|
  { forall j :: 1 <= j <= n ==> !Covers(coins[..j], target, rate) }

  /** Oldest first, until what is chosen covers the payment and its own fee. */
  method Select(candidates: seq<Coin>, target: nat, rate: nat, maxInputs: nat) returns (r: Result<seq<Coin>, Failure>)
    ensures r.Ok? ==> |r.value| <= maxInputs && r.value <= AllEconomic(candidates, rate)
    ensures r.Ok? ==> ShortestPrefix(AllEconomic(candidates, rate), |r.value|, target, rate)
    ensures r.Err? && r.why != Overflow ==>
      var considered := Considered(candidates, rate, maxInputs);
      NoneCovers(considered, |considered|, target, rate)
    ensures r == Err(Overflow) ==> TooMuch(Considered(candidates, rate, maxInputs))
    ensures r == Err(Worthless) ==> candidates != [] && (maxInputs == 0 || AllEconomic(candidates, rate) == [])
    ensures r.Err? && r.why.Short? ==>
      var coins := Considered(candidates, rate, maxInputs);
      r.why == Short(Total(coins), |coins|, Needed(target, rate, if coins == [] then 1 else |coins|))
  {
    hide Covers, Economic, Needed, AllEconomic, Considered, TooMuch, NoneCovers, ShortestPrefix, Total;
    NothingChosen(AllEconomic(candidates, rate), target, rate);
    var chosen: seq<Coin> := [];
    var total, skipped := 0, 0;
    ghost var economic := AllEconomic(candidates, rate);
    EconomicOfNothing(candidates, rate);
    var i := 0;
    while i < |candidates|
      invariant 0 <= i <= |candidates|
      invariant chosen == AllEconomic(candidates[..i], rate) && chosen <= economic && |chosen| <= maxInputs
      invariant total == Total(chosen) && skipped == i - |chosen|
      invariant NoneCovers(economic, |chosen|, target, rate)
      decreases |candidates| - i
    {
      var coin := candidates[i];
      OneMoreCandidate(candidates, i, rate);
      if !Economic(coin, rate) {
        skipped := skipped + 1;
        i := i + 1;
        continue;
      }
      if |chosen| == maxInputs {
        ConsideredIs(candidates, target, rate, maxInputs, chosen);
        return Err(if chosen == [] && skipped > 0 then Worthless
                   else Short(total, |chosen|, Needed(target, rate, if chosen == [] then 1 else |chosen|)));
      }
      ChosenGrows(economic, chosen, coin, target, rate);
      if total + coin.amount >= U64 {
        Overflows(candidates, rate, maxInputs, chosen + [coin]);
        return Err(Overflow);
      }
      total := total + coin.amount;
      chosen := chosen + [coin];
      if total >= Needed(target, rate, |chosen|) { return Ok(chosen); }
      i := i + 1;
    }
    assert candidates[..|candidates|] == candidates;
    ConsideredIs(candidates, target, rate, maxInputs, chosen);
    if chosen == [] && skipped > 0 { return Err(Worthless); }
    return Err(Short(total, |chosen|, Needed(target, rate, if chosen == [] then 1 else |chosen|)));
  }

  /** Some prefix of these adds up to more than 64 bits hold. */
  ghost predicate TooMuch(coins: seq<Coin>)
  { exists j :: 1 <= j <= |coins| && Total(coins[..j]) >= U64 }

  lemma EconomicOfNothing(coins: seq<Coin>, rate: nat)
    ensures AllEconomic(coins[..0], rate) == []
  { }

  lemma OneMoreCandidate(coins: seq<Coin>, i: nat, rate: nat)
    requires i < |coins|
    ensures AllEconomic(coins[..i + 1], rate)
       == AllEconomic(coins[..i], rate) + if Economic(coins[i], rate) then [coins[i]] else []
    ensures AllEconomic(coins[..i + 1], rate) <= AllEconomic(coins, rate)
  {
    assert coins[..i + 1][..i] == coins[..i];
    EconomicGrows(coins, i + 1, rate);
  }

  lemma NothingChosen(economic: seq<Coin>, target: nat, rate: nat)
    ensures NoneCovers(economic, 0, target, rate) && Total([]) == 0
  { }

  lemma ConsideredIs(candidates: seq<Coin>, target: nat, rate: nat, maxInputs: nat, chosen: seq<Coin>)
    requires chosen <= AllEconomic(candidates, rate) && |chosen| <= maxInputs
    requires |chosen| == maxInputs || chosen == AllEconomic(candidates, rate)
    requires NoneCovers(AllEconomic(candidates, rate), |chosen|, target, rate)
    ensures chosen == Considered(candidates, rate, maxInputs) && NoneCovers(chosen, |chosen|, target, rate)
  {
    hide AllEconomic, Covers;
    assert forall j :: 0 <= j <= |chosen| ==> chosen[..j] == AllEconomic(candidates, rate)[..j];
  }

  /** One more coin either completes the shortest prefix or is not enough. */
  lemma ChosenGrows(economic: seq<Coin>, chosen: seq<Coin>, coin: Coin, target: nat, rate: nat)
    requires chosen + [coin] <= economic && NoneCovers(economic, |chosen|, target, rate)
    ensures Total(chosen + [coin]) == Total(chosen) + coin.amount
    ensures if Total(chosen) + coin.amount >= Needed(target, rate, |chosen| + 1)
            then ShortestPrefix(economic, |chosen| + 1, target, rate)
            else NoneCovers(economic, |chosen| + 1, target, rate)
  {
    hide Needed;
    assert (chosen + [coin])[..|chosen|] == chosen;
    assert economic[..|chosen| + 1] == chosen + [coin];
  }

  lemma Overflows(candidates: seq<Coin>, rate: nat, maxInputs: nat, chosen: seq<Coin>)
    requires chosen <= AllEconomic(candidates, rate) && 1 <= |chosen| <= maxInputs && Total(chosen) >= U64
    ensures TooMuch(Considered(candidates, rate, maxInputs))
  {
    assert Considered(candidates, rate, maxInputs)[..|chosen|] == chosen;
  }

  lemma {:induction false} EconomicGrows(coins: seq<Coin>, n: nat, rate: nat)
    requires n <= |coins|
    ensures AllEconomic(coins[..n], rate) <= AllEconomic(coins, rate)
  {
    if n == |coins| {
      assert coins[..n] == coins;
    } else {
      var most := coins[..|coins| - 1];
      EconomicGrows(most, n, rate);
      assert most[..n] == coins[..n];
    }
  }

  // -------------------------------------------------------------------------
  // A failure is not a matter of which coins were tried

  lemma FeeIsSubadditive(rate: nat, a: nat, b: nat)
    ensures Fee(rate, a + b) <= Fee(rate, a) + Fee(rate, b)
  { }

  /** Every further input adds at most its own marginal fee. */
  lemma {:induction false} FeeOfMoreInputs(rate: nat, base: nat, k: nat)
    ensures Fee(rate, base + INPUT_WEIGHT * k) <= Fee(rate, base) + k * Fee(rate, INPUT_WEIGHT)
  {
    if k > 0 {
      FeeOfMoreInputs(rate, base, k - 1);
      FeeIsSubadditive(rate, base + INPUT_WEIGHT * (k - 1), INPUT_WEIGHT);
      assert base + INPUT_WEIGHT * k == base + INPUT_WEIGHT * (k - 1) + INPUT_WEIGHT;
      assert k * Fee(rate, INPUT_WEIGHT) == (k - 1) * Fee(rate, INPUT_WEIGHT) + Fee(rate, INPUT_WEIGHT);
    }
  }

  /** The coins a choice takes, by a flag for each. */
  function Picked(coins: seq<Coin>, pick: seq<bool>): (r: seq<Coin>)
    requires |pick| == |coins|
    ensures |r| <= |coins|
  {
    if coins == [] then [] else
    var most := Picked(coins[..|coins| - 1], pick[..|pick| - 1]);
    if pick[|pick| - 1] then most + [coins[|coins| - 1]] else most
  }

  /** Leaving coins out costs at least their marginal fees. */
  lemma {:induction false} LeftOutIsWorthTheirFees(coins: seq<Coin>, pick: seq<bool>, rate: nat)
    requires |pick| == |coins| && forall i :: 0 <= i < |coins| ==> Economic(coins[i], rate)
    ensures Total(Picked(coins, pick)) + (|coins| - |Picked(coins, pick)|) * Fee(rate, INPUT_WEIGHT) <= Total(coins)
  {
    if coins != [] {
      var most := coins[..|coins| - 1];
      LeftOutIsWorthTheirFees(most, pick[..|pick| - 1], rate);
      var taken := Picked(most, pick[..|pick| - 1]);
      if pick[|pick| - 1] {
        assert (taken + [coins[|coins| - 1]])[..|taken|] == taken;
      } else {
        var marginal, left := Fee(rate, INPUT_WEIGHT), |most| - |taken|;
        assert (left + 1) * marginal == left * marginal + marginal;
      }
    }
  }

  lemma {:induction false} ConsideredAreEconomic(coins: seq<Coin>, rate: nat)
    ensures forall i :: 0 <= i < |AllEconomic(coins, rate)| ==> Economic(AllEconomic(coins, rate)[i], rate)
  {
    if coins != [] { ConsideredAreEconomic(coins[..|coins| - 1], rate); }
  }

  /** When no prefix of the coins looked at covers its own need, no choice among
    * them does: taking all of them is never worse. */
  lemma NoChoiceCovers(candidates: seq<Coin>, target: nat, rate: nat, maxInputs: nat, pick: seq<bool>)
    requires |pick| == |Considered(candidates, rate, maxInputs)| > 0
    requires !Covers(Considered(candidates, rate, maxInputs), target, rate)
    ensures !Covers(Picked(Considered(candidates, rate, maxInputs), pick), target, rate)
  {
    var coins := Considered(candidates, rate, maxInputs);
    var chosen := Picked(coins, pick);
    ConsideredAreEconomic(candidates, rate);
    LeftOutIsWorthTheirFees(coins, pick, rate);
    FeeOfMoreInputs(rate, OVERHEAD_WEIGHT + INPUT_WEIGHT * |chosen|, |coins| - |chosen|);
    assert OVERHEAD_WEIGHT + INPUT_WEIGHT * |chosen| + INPUT_WEIGHT * (|coins| - |chosen|)
       == OVERHEAD_WEIGHT + INPUT_WEIGHT * |coins|;
  }

  /** So a refusal is final for the coins it looked at. */
  method SelectOrNothingWould(candidates: seq<Coin>, target: nat, rate: nat, maxInputs: nat)
    returns (r: Result<seq<Coin>, Failure>)
    ensures r.Err? && r.why != Overflow ==>
      var coins := Considered(candidates, rate, maxInputs);
      forall pick: seq<bool> :: |pick| == |coins| > 0 ==> !Covers(Picked(coins, pick), target, rate)
  {
    r := Select(candidates, target, rate, maxInputs);
    if r.Err? && r.why != Overflow {
      ghost var coins := Considered(candidates, rate, maxInputs);
      assert coins[..|coins|] == coins;
      forall pick: seq<bool> | |pick| == |coins| > 0 ensures !Covers(Picked(coins, pick), target, rate) {
        NoChoiceCovers(candidates, target, rate, maxInputs, pick);
      }
    }
  }
}
