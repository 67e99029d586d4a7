/** What a shared transaction weighs and pays, and why two halves built at the
  * agreed rate never come out short. */
module Fees {
  import opened Wrappers
  import opened Words
  import opened Chain
  import opened PsbtV2

  const TAPROOT_DUST_SATS: nat := 330
  const SHARED_WEIGHT: nat := (4 + 4 + 1 + 1 + 43) * 4 + 2
  const TAPROOT_SCRIPT_BYTES: nat := 34
  const P2WPKH_WITNESS_WEIGHT: nat := 1 + 1 + 71 + 1 + 33
  const TAPROOT_WITNESS_WEIGHT: nat := 1 + 1 + 64
  const FEE_CEILING_FACTOR: nat := 3
  const FEE_CEILING_SLACK_SATS: nat := 1_000

  datatype Role = Start | Join

  /** Half each, and the odd satoshi from the wallet that started. */
  function ShareOfAmount(sats: nat, role: Role): nat
  { if role == Start then sats / 2 + sats % 2 else sats / 2 }

  predicate AmountSplits(sats: nat) { sats / 2 >= TAPROOT_DUST_SATS }

  /** A 64-bit product, which wraps. */
  function Product(a: nat, b: nat): nat { (a * b) % U64 }

  /** What half of the bytes both halves count comes to. */
  function Refund(feeRate: nat): nat { Product(feeRate, SHARED_WEIGHT) / 8 }

  function CompactSize(value: nat): nat
  { if value <= 0xfc then 1 else if value <= 0xffff then 3 else 5 }

  function OutputBytes(o: Output): nat
  {
    var script := if o.info.Some? then TAPROOT_SCRIPT_BYTES else ScriptLength(o.script);
    8 + CompactSize(script) + script
  }

  function WitnessWeight(f: Spend): nat
  { if f.utxo.Some? && f.utxo.value.script.P2tr? then TAPROOT_WITNESS_WEIGHT else P2WPKH_WITNESS_WEIGHT }

  function InputsWeight(inputs: seq<Input>): nat
  {
    if inputs == [] then 0
    else InputsWeight(inputs[..|inputs| - 1]) + (36 + 4 + 1) * 4 + WitnessWeight(inputs[|inputs| - 1].fact)
  }

  function OutputsBytes(outputs: seq<Output>): nat
  { if outputs == [] then 0 else OutputsBytes(outputs[..|outputs| - 1]) + OutputBytes(outputs[|outputs| - 1]) }

  predicate AllPrevouts(p: Psbt)
  { forall i :: 0 <= i < |p.inputs| ==> p.inputs[i].fact.utxo.Some? }

  function Weight(p: Psbt): nat
  {
    (4 + 4 + CompactSize(|p.inputs|) + CompactSize(|p.outputs|) + OutputsBytes(p.outputs)) * 4
    + InputsWeight(p.inputs) + 2
  }

  method EstimatedWeight(p: Psbt) returns (weight: Option<nat>)
    ensures weight == if AllPrevouts(p) then Some(Weight(p)) else None
  {
    hide CompactSize, WitnessWeight, OutputBytes;
    var base := 4 + 4 + CompactSize(|p.inputs|) + CompactSize(|p.outputs|);
    var stack := 2;
    for i := 0 to |p.inputs|
      invariant forall j :: 0 <= j < i ==> p.inputs[j].fact.utxo.Some?
      invariant base * 4 + stack
        == (8 + CompactSize(|p.inputs|) + CompactSize(|p.outputs|)) * 4 + 2 + InputsWeight(p.inputs[..i])
    {
      if p.inputs[i].fact.utxo.None? { return None; }
      base := base + 36 + 4 + 1;
      stack := stack + WitnessWeight(p.inputs[i].fact);
      assert p.inputs[..i + 1][..i] == p.inputs[..i];
    }
    assert p.inputs[..|p.inputs|] == p.inputs;
    for o := 0 to |p.outputs|
      invariant base * 4 + stack
        == (8 + CompactSize(|p.inputs|) + CompactSize(|p.outputs|) + OutputsBytes(p.outputs[..o])) * 4 + 2
          + InputsWeight(p.inputs)
    {
      base := base + OutputBytes(p.outputs[o]);
      assert p.outputs[..o + 1][..o] == p.outputs[..o];
    }
    assert p.outputs[..|p.outputs|] == p.outputs;
    return Some(base * 4 + stack);
  }

  function Spent(inputs: seq<Input>): nat
  {
    if inputs == [] then 0 else
    var last := inputs[|inputs| - 1].fact;
    Spent(inputs[..|inputs| - 1]) + if last.utxo.Some? then last.utxo.value.value else 0
  }

  function Paid(outputs: seq<Output>): nat
  { if outputs == [] then 0 else Paid(outputs[..|outputs| - 1]) + outputs[|outputs| - 1].amount }

  /** The inputs minus the outputs, unless an amount is unknown or a sum leaves 64 bits. */
  function FeeOf(p: Psbt): Option<nat>
  {
    if AllPrevouts(p) && Spent(p.inputs) < U64 && Paid(p.outputs) < U64 && Paid(p.outputs) <= Spent(p.inputs)
    then Some(Spent(p.inputs) - Paid(p.outputs)) else None
  }

  lemma {:induction false} SpentIsMonotone(inputs: seq<Input>, i: nat)
    requires i <= |inputs|
    ensures Spent(inputs[..i]) <= Spent(inputs)
  {
    if i < |inputs| {
      var most := inputs[..|inputs| - 1];
      SpentIsMonotone(most, i);
      assert most[..i] == inputs[..i];
    } else {
      assert inputs[..i] == inputs;
    }
  }

  lemma {:induction false} PaidIsMonotone(outputs: seq<Output>, i: nat)
    requires i <= |outputs|
    ensures Paid(outputs[..i]) <= Paid(outputs)
  {
    if i < |outputs| {
      var most := outputs[..|outputs| - 1];
      PaidIsMonotone(most, i);
      assert most[..i] == outputs[..i];
    } else {
      assert outputs[..i] == outputs;
    }
  }

  method Fee(p: Psbt) returns (fee: Option<nat>)
    ensures fee == FeeOf(p)
  {
    var spent, paid := 0, 0;
    for i := 0 to |p.inputs|
      invariant forall j :: 0 <= j < i ==> p.inputs[j].fact.utxo.Some?
      invariant spent == Spent(p.inputs[..i]) < U64
    {
      if p.inputs[i].fact.utxo.None? { return None; }
      assert p.inputs[..i + 1][..i] == p.inputs[..i];
      SpentIsMonotone(p.inputs, i + 1);
      if spent + p.inputs[i].fact.utxo.value.value >= U64 { return None; }
      spent := spent + p.inputs[i].fact.utxo.value.value;
    }
    assert p.inputs[..|p.inputs|] == p.inputs;
    for o := 0 to |p.outputs|
      invariant paid == Paid(p.outputs[..o]) < U64
    {
      assert p.outputs[..o + 1][..o] == p.outputs[..o];
      PaidIsMonotone(p.outputs, o + 1);
      if paid + p.outputs[o].amount >= U64 { return None; }
      paid := paid + p.outputs[o].amount;
    }
    assert p.outputs[..|p.outputs|] == p.outputs;
    if paid > spent { return None; }
    return Some(spent - paid);
  }

  function Wanted(feeRate: nat, weight: nat): nat { (Product(feeRate, weight) + 3) / 4 }

  predicate FeeOk(p: Psbt, feeRate: nat)
  {
    && FeeOf(p).Some?
    && Wanted(feeRate, Weight(p)) <= FeeOf(p).value <= Wanted(feeRate, Weight(p)) *
            FEE_CEILING_FACTOR + FEE_CEILING_SLACK_SATS
  }

  method CheckFee(p: Psbt, feeRate: nat) returns (r: Result<nat, Refusal>)
    ensures r.Ok? <==> FeeOk(p, feeRate)
    ensures r.Ok? ==> FeeOf(p) == Some(r.value)
    ensures r.Err? ==> r.why == BadFee
  {
    var fee := Fee(p);
    if fee.None? { return Err(BadFee); }
    var weight := EstimatedWeight(p);
    if weight.None? { return Err(BadFee); }
    var wanted := Wanted(feeRate, weight.value);
    if fee.value < wanted { return Err(BadFee); }
    if fee.value > wanted * FEE_CEILING_FACTOR + FEE_CEILING_SLACK_SATS { return Err(BadFee); }
    return Ok(fee.value);
  }

  // -------------------------------------------------------------------------
  // Sums over a joined transaction

  lemma {:induction false} SpentOfBoth(left: seq<Input>, right: seq<Input>)
    ensures Spent(left + right) == Spent(left) + Spent(right)
    ensures InputsWeight(left + right) == InputsWeight(left) + InputsWeight(right)
  {
    if right == [] {
      assert left + right == left;
    } else {
      assert (left + right)[..|left + right| - 1] == left + right[..|right| - 1];
      SpentOfBoth(left, right[..|right| - 1]);
    }
  }

  lemma {:induction false} PaidByBoth(left: seq<Output>, right: seq<Output>)
    ensures Paid(left + right) == Paid(left) + Paid(right)
    ensures OutputsBytes(left + right) == OutputsBytes(left) + OutputsBytes(right)
  {
    if right == [] {
      assert left + right == left;
    } else {
      assert (left + right)[..|left + right| - 1] == left + right[..|right| - 1];
      PaidByBoth(left, right[..|right| - 1]);
    }
  }
}
