/** Building the shared transaction: one wallet's half, the proposal, the join,
  * and the first wallet's check of what the second made of its proposal. */
module Building {
  import opened Wrappers
  import opened Curve
  import opened Chain
  import opened PsbtV2
  import opened Absorb
  import opened Soundness
  import opened Fees

  datatype Address = Address(scan: nat, spend: nat, mainnet: bool)

  function InfoOf(a: Address): Info { Info(a.scan, a.spend) }

  /** What a decoded address always is. */
  predicate AddressOk(c: Curve, a: Address) { IsPoint(c, a.scan) && IsPoint(c, a.spend) }

  datatype Kind = ProposalKind | UpdateKind | DoneKind

  datatype Message = Message(
    session: nat,
    kind: Kind,
    from: nat,
    psbt: Option<Psbt>,
    to: Option<Address>,
    sats: Option<nat>,
    feeRate: Option<nat>,
    txid: Option<nat>
  )

  /** The wallet's own transaction, as BDK built it: it pays the placeholder. */
  datatype HalfInput = HalfInput(
    coin: OutPoint,
    sequence: nat,
    utxo: Option<TxOut>,
    previous: Option<Transaction>,
    derivations: seq<PubKey>
  )

  datatype Half = Half(version: int, lockTime: nat, inputs: seq<HalfInput>, outputs: seq<TxOut>)

  // -------------------------------------------------------------------------
  // One half

  function Placeholder(c: Curve, a: Address): Script { P2tr(c.xonly(a.spend)) }

  function PlaceholderOutputs(c: Curve, half: Half, a: Address): set<nat>
  { set o | 0 <= o < |half.outputs| && half.outputs[o].script == Placeholder(c, a) }

  /** The first output nobody has claimed that pays this script. */
  function FirstPaying(outputs: seq<TxOut>, script: Script): (r: Option<nat>)
    ensures r.Some? ==> r.value < |outputs| && outputs[r.value].script == script
    ensures r.None? ==> forall o :: 0 <= o < |outputs| ==> outputs[o].script != script
  {
    if outputs == [] then None
    else if outputs[0].script == script then Some(0)
    else
      var rest := FirstPaying(outputs[1..], script);
      assert forall o :: 0 < o < |outputs| ==> outputs[o] == outputs[1..][o - 1];
      if rest.None? then None else Some(rest.value + 1)
  }

  function SpendOf(h: HalfInput): Spend
  { Spend(h.coin, Some(h.sequence), None, None, h.utxo, h.previous, h.derivations, None, None) }

  function HalfSpent(inputs: seq<HalfInput>): nat
  { Spent(MapSeq((h: HalfInput) => Input(SpendOf(h), NOTHING_HELD), inputs)) }

  function HalfPaid(outputs: seq<TxOut>): nat
  { if outputs == [] then 0 else HalfPaid(outputs[..|outputs| - 1]) + outputs[|outputs| - 1].value }

  /** The half as PSBTv2: the placeholder becomes the recipient without a script. */
  function BuiltV2(half: Half, index: nat, info: Info): Psbt
    requires index < |half.outputs|
  {
    Psbt(
      Global(half.version, Some(half.lockTime), 0, map[], map[], |half.inputs|, |half.outputs|),
      MapSeq((h: HalfInput) => Input(SpendOf(h), NOTHING_HELD), half.inputs),
      seq(|half.outputs|, o requires 0 <= o < |half.outputs| =>
        if o == index then Output(half.outputs[o].value, NO_SCRIPT, Some(info), None)
        else Output(half.outputs[o].value, half.outputs[o].script, None, None)))
  }

  /** The other output of a half that has one. */
  function ChangeIndex(half: Half, index: nat): Option<nat>
  { if |half.outputs| != 2 || index > 1 then None else Some(1 - index) }

  function HalfRefund(half: Half, index: nat, feeRate: nat): nat
  {
    if ChangeIndex(half, index).Some? && HalfPaid(half.outputs) <= HalfSpent(half.inputs)
       && Refund(feeRate) < HalfSpent(half.inputs) - HalfPaid(half.outputs)
    then Refund(feeRate) else 0
  }

  predicate HalfOk(e: Env, half: Half, to: Address, share: nat)
  {
    && |PlaceholderOutputs(e.curve, half, to)| == 1
    && FirstPaying(half.outputs, Placeholder(e.curve, to)).Some?
    && half.outputs[FirstPaying(half.outputs, Placeholder(e.curve, to)).value].value == share
    && |half.outputs| <= 2
    && (forall i :: 0 <= i < |half.inputs| ==> CheckInput(e, SpendOf(half.inputs[i])))
    && HalfPaid(half.outputs) <= HalfSpent(half.inputs)
  }

  function HalfAsV2(e: Env, half: Half, to: Address, share: nat, feeRate: nat): Result<(Psbt, nat), Refusal>
  {
    if !HalfOk(e, half, to, share) then Err(BadHalf)
    else
      var index := FirstPaying(half.outputs, Placeholder(e.curve, to)).value;
      var built := BuiltV2(half, index, InfoOf(to));
      var change := ChangeIndex(half, index);
      if change.Some? then
        var output := built.outputs[change.value];
        Ok((built.(outputs := built.outputs[change.value :=
          output.(amount := output.amount + HalfRefund(half, index, feeRate))]), index))
      else Ok((built, index))
  }

  // -------------------------------------------------------------------------
  // The proposal

  predicate TermsOk(c: Curve, to: Address, sats: nat, feeRate: nat)
  { AddressOk(c, to) && !to.mainnet && feeRate != 0 && AmountSplits(sats) }

  function Proposed(e: Env, half: Half, to: Address, sats: nat, feeRate: nat): Result<Psbt, Refusal>
  {
    if !TermsOk(e.curve, to, sats, feeRate) then Err(BadTerms)
    else
      var built := HalfAsV2(e, half, to, ShareOfAmount(sats, Start), feeRate);
      if built.Err? then Err(built.why)
      else
        var (psbt, index) := built.value;
        Ok(psbt.(outputs := psbt.outputs[index := psbt.outputs[index].(amount := sats)],
                 global := psbt.global.(flags := OPEN_TO_BOTH)))
  }

  datatype Proposal = Proposal(session: nat, from: nat, to: Address, sats: nat, feeRate: nat, psbt: Psbt)

  function CleanInput(i: Input): Input { Input(i.fact, NOTHING_HELD) }

  function CleanOutput(o: Output): Output
  { if o.info.None? then Output(o.amount, o.script, None, None) else Output(o.amount, NO_SCRIPT, o.info, None) }

  predicate ProposedOutputOk(o: Output, to: Address, sats: nat)
  {
    if o.info.None? then o.script != NO_SCRIPT
    else o.info == Some(InfoOf(to)) && o.spLabel.None? && o.amount == sats && o.script == NO_SCRIPT
  }

  function SilentCount(outputs: seq<Output>): nat
  {
    if outputs == [] then 0
    else SilentCount(outputs[..|outputs| - 1]) + if outputs[|outputs| - 1].info.Some? then 1 else 0
  }

  predicate ProposalOk(e: Env, theirs: Psbt, to: Address, sats: nat)
  {
    && !HasGlobalShare(theirs.global)
    && theirs.global.flags % 4 == OPEN_TO_BOTH
    && theirs.inputs != []
    && (forall i :: 0 <= i < |theirs.inputs| ==> CheckInput(e, theirs.inputs[i].fact))
    && (forall o :: 0 <= o < |theirs.outputs| ==> ProposedOutputOk(theirs.outputs[o], to, sats))
    && SilentCount(theirs.outputs) == 1
    && NoCoinTwice(theirs)
  }

  function ReadProposal(e: Env, m: Message, me: nat): Result<Proposal, Refusal>
  {
    if m.kind != ProposalKind || m.from == me then Err(BadProposal)
    else if m.to.None? || m.sats.None? || m.feeRate.None? || m.psbt.None? then Err(BadProposal)
    else if !TermsOk(e.curve, m.to.value, m.sats.value, m.feeRate.value) then Err(BadTerms)
    else if !ProposalOk(e, m.psbt.value, m.to.value, m.sats.value) then Err(BadProposal)
    else
      var theirs := m.psbt.value;
      Ok(Proposal(m.session, m.from, m.to.value, m.sats.value, m.feeRate.value,
        theirs.(inputs := MapSeq(CleanInput, theirs.inputs), outputs := MapSeq(CleanOutput, theirs.outputs))))
  }

  method ReadProposalMessage(e: Env, m: Message, me: nat) returns (r: Result<Proposal, Refusal>)
    ensures r == ReadProposal(e, m, me)
  {
    hide CheckInput, ProposedOutputOk, TermsOk;
    if m.kind != ProposalKind || m.from == me { return Err(BadProposal); }
    if m.to.None? || m.sats.None? || m.feeRate.None? || m.psbt.None? { return Err(BadProposal); }
    var to, sats, feeRate, theirs := m.to.value, m.sats.value, m.feeRate.value, m.psbt.value;
    if !TermsOk(e.curve, to, sats, feeRate) { return Err(BadTerms); }
    if HasGlobalShare(theirs.global) || theirs.global.flags % 4 != OPEN_TO_BOTH || theirs.inputs == [] {
      return Err(BadProposal);
    }
    var inputs := ReadInputs(e, theirs.inputs);
    if inputs.None? { return Err(BadProposal); }
    var outputs := ReadOutputs(theirs.outputs, to, sats);
    if outputs.None? || outputs.value.1 != 1 { return Err(BadProposal); }
    var psbt := theirs.(inputs := inputs.value, outputs := outputs.value.0);
    assert forall i :: 0 <= i < |psbt.inputs| ==> psbt.inputs[i].fact == theirs.inputs[i].fact;
    var twice := FindsCoinTwice(psbt);
    if twice { return Err(BadProposal); }
    return Ok(Proposal(m.session, m.from, to, sats, feeRate, psbt));
  }

  method ReadInputs(e: Env, theirs: seq<Input>) returns (r: Option<seq<Input>>)
    ensures r.Some? <==> forall i :: 0 <= i < |theirs| ==> CheckInput(e, theirs[i].fact)
    ensures r.Some? ==> r.value == MapSeq(CleanInput, theirs)
  {
    hide CheckInput;
    var inputs: seq<Input> := [];
    for i := 0 to |theirs|
      invariant inputs == MapSeq(CleanInput, theirs[..i])
      invariant forall j :: 0 <= j < i ==> CheckInput(e, theirs[j].fact)
    {
      if !CheckInput(e, theirs[i].fact) { return None; }
      inputs := inputs + [CleanInput(theirs[i])];
    }
    return Some(inputs);
  }

  /** The outputs as they are kept, and how many are silent payments. */
  method ReadOutputs(theirs: seq<Output>, to: Address, sats: nat) returns (r: Option<(seq<Output>, nat)>)
    ensures r.Some? <==> forall o :: 0 <= o < |theirs| ==> ProposedOutputOk(theirs[o], to, sats)
    ensures r.Some? ==> r.value == (MapSeq(CleanOutput, theirs), SilentCount(theirs))
  {
    hide ProposedOutputOk;
    var outputs: seq<Output> := [];
    var paid := 0;
    for o := 0 to |theirs|
      invariant outputs == MapSeq(CleanOutput, theirs[..o])
      invariant forall j :: 0 <= j < o ==> ProposedOutputOk(theirs[j], to, sats)
      invariant paid == SilentCount(theirs[..o])
    {
      if !ProposedOutputOk(theirs[o], to, sats) { return None; }
      assert theirs[..o + 1][..o] == theirs[..o];
      if theirs[o].info.Some? { paid := paid + 1; }
      outputs := outputs + [CleanOutput(theirs[o])];
    }
    assert theirs[..|theirs|] == theirs;
    return Some((outputs, paid));
  }

  method FindsCoinTwice(p: Psbt) returns (twice: bool)
    ensures twice <==> !NoCoinTwice(p)
  {
    var seen: set<OutPoint> := {};
    for i := 0 to |p.inputs|
      invariant forall coin :: coin in seen <==> exists j :: 0 <= j < i && p.inputs[j].fact.coin == coin
      invariant forall j, k :: 0 <= j < k < i ==> p.inputs[j].fact.coin != p.inputs[k].fact.coin
    {
      if p.inputs[i].fact.coin in seen { return true; }
      seen := seen + {p.inputs[i].fact.coin};
    }
    return false;
  }

  // -------------------------------------------------------------------------
  // The join

  function WithCounts(p: Psbt): Psbt
  { p.(global := p.global.(inputCount := |p.inputs|, outputCount := |p.outputs|)) }

  function JoinedPsbt(proposal: Psbt, mine: Psbt, placeholder: nat): Psbt
    requires placeholder < |mine.outputs|
  {
    WithCounts(proposal.(
      inputs := proposal.inputs + mine.inputs,
      outputs := proposal.outputs + Without(mine.outputs, placeholder),
      global := proposal.global.(flags := 0)))
  }

  function Joined(e: Env, proposal: Proposal, half: Half): Result<Psbt, Refusal>
  {
    var built := HalfAsV2(e, half, proposal.to, ShareOfAmount(proposal.sats, Join), proposal.feeRate);
    if built.Err? then Err(built.why)
    else
      var joined := JoinedPsbt(proposal.psbt, built.value.0, built.value.1);
      if !NoCoinTwice(joined) then Err(CoinTwice)
      else if !FeeOk(joined, proposal.feeRate) then Err(BadFee)
      else Ok(joined)
  }

  /** The first `n` outputs but the one at `index`. */
  ghost function Skipping(outputs: seq<Output>, index: nat, n: nat): seq<Output>
    requires index < |outputs| && n <= |outputs|
  { if n <= index then outputs[..n] else outputs[..index] + outputs[index + 1..n] }

  lemma SkippingOneMore(outputs: seq<Output>, index: nat, n: nat)
    requires index < |outputs| && n < |outputs|
    ensures Skipping(outputs, index, n + 1) == Skipping(outputs, index, n) + if n == index then [] else [outputs[n]]
  { }

  lemma SkippingAll(outputs: seq<Output>, index: nat)
    requires index < |outputs|
    ensures Skipping(outputs, index, 0) == [] && Skipping(outputs, index, |outputs|) == Without(outputs, index)
  { }

  method AppendHalf(proposal: Psbt, mine: Psbt, placeholder: nat) returns (joined: Psbt)
    requires placeholder < |mine.outputs|
    ensures joined == JoinedPsbt(proposal, mine, placeholder)
  {
    hide Skipping;
    var inputs, outputs := proposal.inputs, proposal.outputs;
    for i := 0 to |mine.inputs|
      invariant inputs == proposal.inputs + mine.inputs[..i]
    {
      inputs := inputs + [mine.inputs[i]];
    }
    assert mine.inputs[..|mine.inputs|] == mine.inputs;
    SkippingAll(mine.outputs, placeholder);
    for o := 0 to |mine.outputs|
      invariant outputs == proposal.outputs + Skipping(mine.outputs, placeholder, o)
    {
      SkippingOneMore(mine.outputs, placeholder, o);
      if o != placeholder {
        outputs := outputs + [mine.outputs[o]];
      }
    }
    joined := proposal.(inputs := inputs, outputs := outputs, global := proposal.global.(flags := 0));
    joined := WithCounts(joined);
  }

  method JoinHalves(e: Env, proposal: Proposal, half: Half) returns (r: Result<Psbt, Refusal>)
    ensures r == Joined(e, proposal, half)
  {
    hide JoinedPsbt, FeeOk, NoCoinTwice;
    var built := HalfAsV2(e, half, proposal.to, ShareOfAmount(proposal.sats, Join), proposal.feeRate);
    if built.Err? { return Err(built.why); }
    var joined := AppendHalf(proposal.psbt, built.value.0, built.value.1);
    var twice := FindsCoinTwice(joined);
    if twice { return Err(CoinTwice); }
    var fee := CheckFee(joined, proposal.feeRate);
    if fee.Err? { return Err(fee.why); }
    return Ok(joined);
  }

  // -------------------------------------------------------------------------
  // The first wallet's check of the join

  function OwnInput(own: seq<Input>, coin: OutPoint): (r: Option<Input>)
    ensures r.Some? ==> r.value in own && r.value.fact.coin == coin
    ensures r.None? <==> forall i :: 0 <= i < |own| ==> own[i].fact.coin != coin
  {
    if own == [] then None
    else if own[0].fact.coin == coin then Some(own[0])
    else
      assert forall i :: 0 < i < |own| ==> own[i] == own[1..][i - 1];
      OwnInput(own[1..], coin)
  }

  /** This wallet's coin must be spent as proposed; an added one is checked. */
  predicate AdoptsInput(e: Env, own: seq<Input>, theirs: Input)
  {
    match OwnInput(own, theirs.fact.coin)
    case Some(mine) => SameSpend(mine.fact, theirs.fact)
    case None => CheckInput(e, theirs.fact)
  }

  function AdoptedInput(own: seq<Input>, theirs: Input): Input
  {
    match OwnInput(own, theirs.fact.coin)
    case Some(mine) => mine
    case None => CleanInput(theirs)
  }

  function FoundInputs(own: seq<Input>, theirs: seq<Input>): set<nat>
  { set i | 0 <= i < |theirs| && OwnInput(own, theirs[i].fact.coin).Some? }

  function PositionOf(outputs: seq<Output>, bare: Output): (r: Option<nat>)
    ensures r.Some? ==> r.value < |outputs| && BareOutput(outputs[r.value]) == bare
    ensures r.None? ==> forall i :: 0 <= i < |outputs| ==> BareOutput(outputs[i]) != bare
  {
    if outputs == [] then None
    else if BareOutput(outputs[0]) == bare then Some(0)
    else
      var rest := PositionOf(outputs[1..], bare);
      assert forall i :: 0 < i < |outputs| ==> outputs[i] == outputs[1..][i - 1];
      if rest.None? then None else Some(rest.value + 1)
  }

  predicate MayBeAdded(o: Output) { o.info.None? && o.script != NO_SCRIPT }

  /** Match their outputs one by one against what is left of this wallet's own:
    * what was taken, and what nobody claimed. */
  function Greedy(own: seq<Output>, theirs: seq<Output>): Option<(seq<Output>, seq<Output>)>
  {
    if theirs == [] then Some(([], own)) else
    var last := theirs[|theirs| - 1];
    match Greedy(own, theirs[..|theirs| - 1])
    case None => None
    case Some((taken, left)) =>
      match PositionOf(left, BareOutput(last))
      case Some(i) => Some((taken + [left[i]], Without(left, i)))
      case None => if MayBeAdded(last) then Some((taken + [CleanOutput(last)], left)) else None
  }

  function Adopted(e: Env, proposal: Psbt, joined: Psbt, feeRate: nat): Result<Psbt, Refusal>
  {
    if HasGlobalShare(joined.global) then Err(GlobalShare)
    else if joined.global.version != proposal.global.version then Err(Changed)
    else if FallbackLockTime(joined.global) != FallbackLockTime(proposal.global) then Err(Changed)
    else if joined.global.flags != 0 then Err(StillOpen)
    else if !NoCoinTwice(joined) then Err(CoinTwice)
    else if exists i :: 0 <= i < |joined.inputs| && !AdoptsInput(e, proposal.inputs, joined.inputs[i])
    then Err(BadInput)
    else if |FoundInputs(proposal.inputs, joined.inputs)| != |proposal.inputs| then Err(Dropped)
    else if |joined.inputs| == |proposal.inputs| then Err(NoNewCoins)
    else
      var matched := Greedy(proposal.outputs, joined.outputs);
      if matched.None? then Err(BadOutput)
      else if matched.value.1 != [] then Err(Dropped)
      else
        var state := AdoptedState(proposal, joined, matched.value.0);
        if FeeOk(state, feeRate) then Ok(state) else Err(BadFee)
  }

  function AdoptedState(proposal: Psbt, joined: Psbt, outputs: seq<Output>): Psbt
  {
    WithCounts(Psbt(
      proposal.global.(flags := 0),
      MapSeq((i: Input) => AdoptedInput(proposal.inputs, i), joined.inputs),
      outputs))
  }

  method AdoptJoin(e: Env, proposal: Psbt, joined: Psbt, feeRate: nat) returns (r: Result<Psbt, Refusal>)
    ensures r == Adopted(e, proposal, joined, feeRate)
  {
    if HasGlobalShare(joined.global) { return Err(GlobalShare); }
    if joined.global.version != proposal.global.version { return Err(Changed); }
    if FallbackLockTime(joined.global) != FallbackLockTime(proposal.global) { return Err(Changed); }
    if joined.global.flags != 0 { return Err(StillOpen); }
    var twice := FindsCoinTwice(joined);
    if twice { return Err(CoinTwice); }
    var adopted := AdoptInputs(e, proposal, joined);
    if adopted.Err? { return Err(adopted.why); }
    var (inputs, found) := adopted.value;
    if found != |proposal.inputs| { return Err(Dropped); }
    if |joined.inputs| == found { return Err(NoNewCoins); }
    var matched := AdoptOutputs(proposal.outputs, joined.outputs);
    if matched.None? { return Err(BadOutput); }
    if matched.value.1 != [] { return Err(Dropped); }
    var state := WithCounts(Psbt(proposal.global.(flags := 0), inputs, matched.value.0));
    var fee := CheckFee(state, feeRate);
    if fee.Err? { return Err(fee.why); }
    return Ok(state);
  }

  method AdoptInputs(e: Env, proposal: Psbt, joined: Psbt) returns (r: Result<(seq<Input>, nat), Refusal>)
    ensures r == if exists i :: 0 <= i < |joined.inputs| && !AdoptsInput(e, proposal.inputs, joined.inputs[i])
                 then Err(BadInput)
                 else Ok((MapSeq((i: Input) => AdoptedInput(proposal.inputs, i), joined.inputs),
                          |FoundInputs(proposal.inputs, joined.inputs)|))
  {
    hide CheckInput, SameSpend, FoundInputs;
    var inputs: seq<Input> := [];
    var found := 0;
    assert |FoundInputs(proposal.inputs, joined.inputs[..0])| == 0 by { NoneFound(proposal.inputs, joined.inputs); }
    for i := 0 to |joined.inputs|
      invariant |inputs| == i
      invariant forall j :: 0 <= j < i ==> AdoptsInput(e, proposal.inputs, joined.inputs[j])
      invariant forall j :: 0 <= j < i ==> inputs[j] == AdoptedInput(proposal.inputs, joined.inputs[j])
      invariant found == |FoundInputs(proposal.inputs, joined.inputs[..i])|
    {
      FoundOneMore(proposal.inputs, joined.inputs, i);
      var own := OwnInput(proposal.inputs, joined.inputs[i].fact.coin);
      var ok := if own.Some? then SameSpend(own.value.fact, joined.inputs[i].fact)
                else CheckInput(e, joined.inputs[i].fact);
      assert ok <==> AdoptsInput(e, proposal.inputs, joined.inputs[i]);
      if !ok {
        return Err(BadInput);
      }
      if own.Some? {
        found := found + 1;
        inputs := inputs + [own.value];
      } else {
        inputs := inputs + [CleanInput(joined.inputs[i])];
      }
    }
    assert joined.inputs[..|joined.inputs|] == joined.inputs;
    assert inputs == MapSeq((i: Input) => AdoptedInput(proposal.inputs, i), joined.inputs);
    return Ok((inputs, found));
  }

  lemma NoneFound(own: seq<Input>, theirs: seq<Input>)
    ensures FoundInputs(own, theirs[..0]) == {}
  { }

  lemma FoundOneMore(own: seq<Input>, theirs: seq<Input>, i: nat)
    requires i < |theirs|
    ensures |FoundInputs(own, theirs[..i + 1])|
         == |FoundInputs(own, theirs[..i])| + if OwnInput(own, theirs[i].fact.coin).Some? then 1 else 0
  {
    var before, after := FoundInputs(own, theirs[..i]), FoundInputs(own, theirs[..i + 1]);
    assert after == if OwnInput(own, theirs[i].fact.coin).Some? then before + {i} else before;
  }

  method AdoptOutputs(own: seq<Output>, theirs: seq<Output>) returns (r: Option<(seq<Output>, seq<Output>)>)
    ensures r == Greedy(own, theirs)
  {
    var unclaimed := own;
    var outputs: seq<Output> := [];
    for o := 0 to |theirs|
      invariant Greedy(own, theirs[..o]) == Some((outputs, unclaimed))
    {
      assert theirs[..o + 1][..o] == theirs[..o];
      var position := PositionOf(unclaimed, BareOutput(theirs[o]));
      if position.Some? {
        outputs := outputs + [unclaimed[position.value]];
        unclaimed := Without(unclaimed, position.value);
      } else if MayBeAdded(theirs[o]) {
        outputs := outputs + [CleanOutput(theirs[o])];
      } else {
        GreedyFails(own, theirs, o + 1);
        return None;
      }
    }
    assert theirs[..|theirs|] == theirs;
    return Some((outputs, unclaimed));
  }

  lemma {:induction false} GreedyFails(own: seq<Output>, theirs: seq<Output>, n: nat)
    requires n <= |theirs| && Greedy(own, theirs[..n]).None?
    ensures Greedy(own, theirs).None?
  {
    if n == |theirs| {
      assert theirs[..n] == theirs;
    } else {
      var most := theirs[..|theirs| - 1];
      assert most[..n] == theirs[..n];
      GreedyFails(own, most, n);
    }
  }
}
