/** Two halves that each pay the agreed rate on their own pay it together. */
module FeeFloor {
  import opened Wrappers
  import opened Words
  import opened Chain
  import opened PsbtV2
  import opened Fees
  import opened Building
  import opened Joining

  /** The two contributions are the whole amount, and never differ by more than
    * the odd satoshi. */
  lemma SharesAddUp(sats: nat)
    ensures ShareOfAmount(sats, Start) + ShareOfAmount(sats, Join) == sats
    ensures 0 <= ShareOfAmount(sats, Start) - ShareOfAmount(sats, Join) <= 1
    ensures AmountSplits(sats) <==> forall role :: ShareOfAmount(sats, role) >= TAPROOT_DUST_SATS
  { }

  // -------------------------------------------------------------------------
  // Sums under change of one output

  lemma {:induction false} PaidWithout(outputs: seq<Output>, i: nat)
    requires i < |outputs|
    ensures Paid(outputs) == Paid(Without(outputs, i)) + outputs[i].amount
    ensures OutputsBytes(outputs) == OutputsBytes(Without(outputs, i)) + OutputBytes(outputs[i])
  {
    var most := outputs[..|outputs| - 1];
    if i == |outputs| - 1 {
      assert Without(outputs, i) == most;
    } else {
      PaidWithout(most, i);
      assert Without(outputs, i)[..|outputs| - 2] == Without(most, i);
    }
  }

  lemma PaidWith(outputs: seq<Output>, i: nat, o: Output)
    requires i < |outputs| && o == outputs[i].(amount := o.amount)
    ensures Paid(outputs[i := o]) == Paid(outputs) - outputs[i].amount + o.amount
    ensures OutputsBytes(outputs[i := o]) == OutputsBytes(outputs)
  {
    PaidWithout(outputs, i);
    PaidWithout(outputs[i := o], i);
    assert Without(outputs[i := o], i) == Without(outputs, i);
  }

  lemma {:induction false} PaidIsHalfPaid(half: seq<TxOut>, outputs: seq<Output>)
    requires |half| == |outputs| && forall o :: 0 <= o < |half| ==> half[o].value == outputs[o].amount
    ensures HalfPaid(half) == Paid(outputs)
  {
    if half != [] { PaidIsHalfPaid(half[..|half| - 1], outputs[..|outputs| - 1]); }
  }

  lemma {:induction false} AllHaveUtxos(e: Env, p: Psbt)
    requires Clean(e, p)
    ensures AllPrevouts(p)
  { }

  // -------------------------------------------------------------------------
  // One half

  /** What the half pays in fees on its own. */
  function HalfFee(half: Half): int { HalfSpent(half.inputs) - HalfPaid(half.outputs) }

  function HalfIndex(e: Env, half: Half, to: Address): nat
    requires FirstPaying(half.outputs, Placeholder(e.curve, to)).Some?
  { FirstPaying(half.outputs, Placeholder(e.curve, to)).value }

  /** On its own the half pays at least the agreed rate for its estimated weight. */
  ghost predicate PaysItsWay(e: Env, half: Half, to: Address, feeRate: nat)
    requires FirstPaying(half.outputs, Placeholder(e.curve, to)).Some?
  { 4 * HalfFee(half) >= feeRate * Weight(BuiltV2(half, HalfIndex(e, half, to), InfoOf(to))) }

  /** What turning a half into PSBTv2 does to its sums: the change takes the
    * refund, the weight does not move. */
  lemma HalfSums(e: Env, half: Half, to: Address, share: nat, feeRate: nat) returns (refund: nat)
    requires HalfAsV2(e, half, to, share, feeRate).Ok?
    ensures FirstPaying(half.outputs, Placeholder(e.curve, to)).Some?
    ensures var (psbt, index) := HalfAsV2(e, half, to, share, feeRate).value;
      && Spent(psbt.inputs) == HalfSpent(half.inputs)
      && Paid(psbt.outputs) == HalfPaid(half.outputs) + refund
      && Weight(psbt) == Weight(BuiltV2(half, HalfIndex(e, half, to), InfoOf(to)))
      && |psbt.outputs| <= 2
    ensures 8 * refund <= feeRate * SHARED_WEIGHT && (refund == 0 || refund < HalfFee(half)) && HalfFee(half) >= 0
  {
    hide CheckInput, Weight, BuiltV2, HalfRefund, Spent, Paid, HalfSpent, HalfPaid;
    var (psbt, index) := HalfAsV2(e, half, to, share, feeRate).value;
    var built := BuiltV2(half, index, InfoOf(to));
    BuiltSums(half, index, InfoOf(to));
    var change := ChangeIndex(half, index);
    if change.Some? {
      refund := HalfRefund(half, index, feeRate);
      RefundBounds(half, index, feeRate);
      ChangeTakes(built, change.value, refund);
    } else {
      refund := 0;
    }
  }

  lemma RefundBounds(half: Half, index: nat, feeRate: nat)
    ensures var refund := HalfRefund(half, index, feeRate);
      8 * refund <= feeRate * SHARED_WEIGHT && (refund == 0 || refund < HalfFee(half))
  { }

  lemma BuiltSums(half: Half, index: nat, info: Info)
    requires index < |half.outputs|
    ensures var built := BuiltV2(half, index, info);
      && |built.outputs| == |half.outputs|
      && Spent(built.inputs) == HalfSpent(half.inputs) && Paid(built.outputs) == HalfPaid(half.outputs)
  {
    var built := BuiltV2(half, index, info);
    PaidIsHalfPaid(half.outputs, built.outputs);
    SameCoinValues(MapSeq((h: HalfInput) => Input(SpendOf(h), NOTHING_HELD), half.inputs), built.inputs);
  }

  lemma ChangeTakes(p: Psbt, at: nat, refund: nat)
    requires at < |p.outputs|
    ensures var after := p.(outputs := p.outputs[at := p.outputs[at].(amount := p.outputs[at].amount + refund)]);
      Paid(after.outputs) == Paid(p.outputs) + refund && Weight(after) == Weight(p)
  {
    hide Paid, OutputsBytes, InputsWeight;
    PaidWith(p.outputs, at, p.outputs[at].(amount := p.outputs[at].amount + refund));
  }

  lemma Floor(rate: nat, a: nat, b: nat, joined: nat, feeA: int, feeB: int, refundA: nat, refundB: nat)
    requires joined + SHARED_WEIGHT == a + b
    requires 4 * feeA >= rate * a && 4 * feeB >= rate * b
    requires 8 * refundA <= rate * SHARED_WEIGHT && 8 * refundB <= rate * SHARED_WEIGHT
    ensures 4 * (feeA + feeB - refundA - refundB) >= rate * joined
    ensures feeA + feeB - refundA - refundB >= 0 ==> Wanted(rate, joined) <= feeA + feeB - refundA - refundB
  {
    assert rate * joined == rate * a + rate * b - rate * SHARED_WEIGHT;
    assert Product(rate, joined) <= rate * joined;
  }

  /** The sums of a join, from the sums of its two parts. */
  lemma JoinSums(left: Psbt, index: nat, sats: nat, mine: Psbt, placeholder: nat)
    requires index < |left.outputs| <= 2 && placeholder < |mine.outputs| <= 2
    requires left.outputs[index].amount + mine.outputs[placeholder].amount == sats
    requires mine.outputs[placeholder].info.Some?
    ensures var joined := JoinedPsbt(WithAmount(left, index, sats), mine, placeholder);
      && Spent(joined.inputs) == Spent(left.inputs) + Spent(mine.inputs)
      && Paid(joined.outputs) == Paid(left.outputs) + Paid(mine.outputs)
      && (|joined.inputs| < 253 ==> Weight(joined) + SHARED_WEIGHT == Weight(left) + Weight(mine))
  {
    var agreed := WithAmount(left, index, sats);
    PaidWith(left.outputs, index, agreed.outputs[index]);
    PaidWithout(mine.outputs, placeholder);
    PaidByBoth(agreed.outputs, Without(mine.outputs, placeholder));
    SpentOfBoth(left.inputs, mine.inputs);
  }

  function WithAmount(p: Psbt, index: nat, sats: nat): Psbt
    requires index < |p.outputs|
  { p.(outputs := p.outputs[index := p.outputs[index].(amount := sats)], global := p.global.(flags := OPEN_TO_BOTH)) }

  ghost predicate SmallRefund(refund: nat, feeRate: nat)
  { 8 * refund <= feeRate * SHARED_WEIGHT }

  lemma ProposedIs(e: Env, half: Half, to: Address, sats: nat, feeRate: nat)
    requires Proposed(e, half, to, sats, feeRate).Ok?
    ensures var share := ShareOfAmount(sats, Start);
      && HalfAsV2(e, half, to, share, feeRate).Ok? && share > 0
      && ShareOfAmount(sats, Join) > 0 && AddressOk(e.curve, to)
      && var (left, index) := HalfAsV2(e, half, to, share, feeRate).value;
      && index < |left.outputs| && Proposed(e, half, to, sats, feeRate).value == WithAmount(left, index, sats)
  { }

  /** What is spent minus what is paid, and when the fee is a number at all. */
  lemma FeeOfBalanced(p: Psbt, fee: int)
    requires AllPrevouts(p) && Spent(p.inputs) - Paid(p.outputs) == fee >= 0
    ensures FeeOf(p).Some? <==> Spent(p.inputs) < U64
    ensures FeeOf(p).Some? ==> FeeOf(p).value == fee
  { }

  /** The joined transaction pays the two fees less the two refunds. Whether the
    * 64-bit products wrap or not, a rate each half met is met by the whole, as
    * long as the input count is still one byte. */
  lemma TwoHalvesPayEnough(e: Env, a: Half, b: Half, to: Address, sats: nat, feeRate: nat, proposal: Psbt)
    returns (joined: Psbt, refundA: nat, refundB: nat)
    requires Proposed(e, a, to, sats, feeRate) == Ok(proposal)
    requires HalfAsV2(e, b, to, ShareOfAmount(sats, Join), feeRate).Ok?
    ensures var (mine, placeholder) := HalfAsV2(e, b, to, ShareOfAmount(sats, Join), feeRate).value;
      placeholder < |mine.outputs| && joined == JoinedPsbt(proposal, mine, placeholder)
    ensures SmallRefund(refundA, feeRate) && SmallRefund(refundB, feeRate)
    ensures Spent(joined.inputs) - Paid(joined.outputs) == HalfFee(a) + HalfFee(b) - refundA - refundB >= 0
    ensures FeeOf(joined).Some? <==> Spent(joined.inputs) < U64
    ensures FirstPaying(a.outputs, Placeholder(e.curve, to)).Some?
    ensures FirstPaying(b.outputs, Placeholder(e.curve, to)).Some?
    ensures (
        && PaysItsWay(e, a, to, feeRate) && PaysItsWay(e, b, to, feeRate)
        && |joined.inputs| < 253 && FeeOf(joined).Some?) ==>
      Wanted(feeRate, Weight(joined)) <= FeeOf(joined).value
  {
    hide *;
    var shareA, shareB := ShareOfAmount(sats, Start), ShareOfAmount(sats, Join);
    ProposedIs(e, a, to, sats, feeRate);
    var (left, index) := HalfAsV2(e, a, to, shareA, feeRate).value;
    var (mine, placeholder) := HalfAsV2(e, b, to, shareB, feeRate).value;
    HalfIsClean(e, a, to, shareA, feeRate);
    HalfIsClean(e, b, to, shareB, feeRate);
    ProposedIsClean(e, a, to, sats, feeRate);
    joined := JoinedPsbt(proposal, mine, placeholder);
    BothClean(e, proposal, mine, placeholder);
    AllHaveUtxos(e, joined);
    refundA := HalfSums(e, a, to, shareA, feeRate);
    refundB := HalfSums(e, b, to, shareB, feeRate);
    SharesAddUp(sats);
    JoinSums(left, index, sats, mine, placeholder);
    FeesAdd(a, b, left, mine, refundA, refundB);
    var fee := HalfFee(a) + HalfFee(b) - refundA - refundB;
    FeeOfBalanced(joined, fee);
    SmallRefunds(refundA, refundB, feeRate);
    if PaysItsWay(e, a, to, feeRate) && PaysItsWay(e, b, to, feeRate) && |joined.inputs| < 253 && FeeOf(joined).Some? {
      ItsWay(e, a, to, feeRate);
      ItsWay(e, b, to, feeRate);
      Floor(feeRate, Weight(left), Weight(mine), Weight(joined), HalfFee(a), HalfFee(b), refundA, refundB);
    }
  }

  lemma ItsWay(e: Env, half: Half, to: Address, feeRate: nat)
    requires FirstPaying(half.outputs, Placeholder(e.curve, to)).Some? && PaysItsWay(e, half, to, feeRate)
    ensures 4 * HalfFee(half) >= feeRate * Weight(BuiltV2(half, HalfIndex(e, half, to), InfoOf(to)))
  { }

  lemma SmallRefunds(refundA: nat, refundB: nat, feeRate: nat)
    requires 8 * refundA <= feeRate * SHARED_WEIGHT && 8 * refundB <= feeRate * SHARED_WEIGHT
    ensures SmallRefund(refundA, feeRate) && SmallRefund(refundB, feeRate)
  { }

  lemma FeesAdd(a: Half, b: Half, left: Psbt, mine: Psbt, refundA: nat, refundB: nat)
    requires Spent(left.inputs) == HalfSpent(a.inputs) && Paid(left.outputs) == HalfPaid(a.outputs) + refundA
    requires Spent(mine.inputs) == HalfSpent(b.inputs) && Paid(mine.outputs) == HalfPaid(b.outputs) + refundB
    ensures Spent(left.inputs) + Spent(mine.inputs) - Paid(left.outputs) - Paid(mine.outputs)
      == HalfFee(a) + HalfFee(b) - refundA - refundB
  { }
}
