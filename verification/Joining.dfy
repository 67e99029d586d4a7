/** A joined transaction starts sound, two honest halves are accepted on both
  * sides, and together they never pay too little. */
module Joining {
  import opened Wrappers
  import opened Curve
  import opened Chain
  import opened PsbtV2
  import opened Shares
  import opened Absorb
  import opened Soundness
  import opened Fees
  import opened Building
  import opened Matching

  // -------------------------------------------------------------------------
  // Nothing collected yet

  ghost predicate CleanOutputs(c: Curve, outputs: seq<Output>)
  {
    && RecipientsOk(c, outputs)
    && (forall o :: 0 <= o < |outputs| && outputs[o].info.Some? ==> outputs[o].script == NO_SCRIPT)
    && (forall o :: 0 <= o < |outputs| && outputs[o].info.None? ==> outputs[o].spLabel.None?)
  }

  ghost predicate CleanInputs(e: Env, inputs: seq<Input>)
  { forall i :: 0 <= i < |inputs| ==> CheckInput(e, inputs[i].fact) && inputs[i].held == NOTHING_HELD }

  /** Checked coins and recipients, and no share, script or signature. */
  ghost predicate Clean(e: Env, p: Psbt)
  { !HasGlobalShare(p.global) && p.inputs != [] && CleanInputs(e, p.inputs) && CleanOutputs(e.curve, p.outputs) }

  lemma CleanIsSound(e: Env, p: Psbt)
    requires Clean(e, p) && p.global.flags == 0
    ensures Sound(e, p)
  { }

  lemma {:induction false} EmptyHalfSpendsNothing(half: Half)
    ensures half.inputs == [] ==> HalfSpent(half.inputs) == 0
  { }

  lemma {:induction false} HalfPaysEachOutput(outputs: seq<TxOut>, o: nat)
    requires o < |outputs|
    ensures outputs[o].value <= HalfPaid(outputs)
  {
    if o < |outputs| - 1 { HalfPaysEachOutput(outputs[..|outputs| - 1], o); }
  }

  /** A half that passed its checks, in the form both sides work with. */
  lemma HalfIsClean(e: Env, half: Half, to: Address, share: nat, feeRate: nat)
    requires HalfAsV2(e, half, to, share, feeRate).Ok? && share > 0 && AddressOk(e.curve, to)
    ensures var (psbt, index) := HalfAsV2(e, half, to, share, feeRate).value;
      && Clean(e, psbt) && index < |psbt.outputs| == |half.outputs|
      && psbt.outputs[index] == Output(share, NO_SCRIPT, Some(InfoOf(to)), None)
      && psbt.outputs[index].amount == half.outputs[index].value
      && (forall o :: 0 <= o < |psbt.outputs| && o != index ==>
            psbt.outputs[o].info.None? && psbt.outputs[o].spLabel.None?
            && psbt.outputs[o].script == half.outputs[o].script)
  {
    hide CheckInput;
    var (psbt, index) := HalfAsV2(e, half, to, share, feeRate).value;
    HalfPaysEachOutput(half.outputs, index);
    EmptyHalfSpendsNothing(half);
  }

  // -------------------------------------------------------------------------
  // What a wallet knows about a proposal it read

  ghost predicate IsPayment(o: Output, to: Address, sats: nat)
  { o == Output(sats, NO_SCRIPT, Some(InfoOf(to)), None) }

  /** The only silent payment is the agreed one, without a script yet. */
  ghost predicate PaysAgreed(outputs: seq<Output>, to: Address, sats: nat)
  {
    && SilentCount(outputs) == 1
    && forall o :: 0 <= o < |outputs| && outputs[o].info.Some? ==> IsPayment(outputs[o], to, sats)
  }

  ghost predicate CheckedProposal(e: Env, p: Proposal)
  {
    && TermsOk(e.curve, p.to, p.sats, p.feeRate)
    && Clean(e, p.psbt) && NoCoinTwice(p.psbt)
    && PaysAgreed(p.psbt.outputs, p.to, p.sats)
  }

  lemma {:induction false} SameSilentCount(left: seq<Output>, right: seq<Output>)
    requires |left| == |right| && forall o :: 0 <= o < |left| ==> left[o].info == right[o].info
    ensures SilentCount(left) == SilentCount(right)
  {
    if left != [] { SameSilentCount(left[..|left| - 1], right[..|right| - 1]); }
  }

  lemma ReadProposalChecks(e: Env, m: Message, me: nat)
    requires ReadProposal(e, m, me).Ok?
    ensures CheckedProposal(e, ReadProposal(e, m, me).value)
  {
    hide CheckInput;
    var p, theirs := ReadProposal(e, m, me).value, m.psbt.value;
    SameSilentCount(theirs.outputs, p.psbt.outputs);
    forall o | 0 <= o < |p.psbt.outputs|
      ensures p.psbt.outputs[o].info.Some? ==> IsPayment(p.psbt.outputs[o], p.to, p.sats)
      ensures p.psbt.outputs[o].info.Some? ==> IsPoint(e.curve, p.to.scan) && IsPoint(e.curve, p.to.spend)
    {
      assert ProposedOutputOk(theirs.outputs[o], p.to, p.sats);
      assert p.psbt.outputs[o] == CleanOutput(theirs.outputs[o]);
    }
    assert forall i :: 0 <= i < |theirs.inputs| ==> p.psbt.inputs[i].fact == theirs.inputs[i].fact;
  }

  // -------------------------------------------------------------------------
  // Wallet A's own proposal, and wallet B's join

  lemma {:induction false} SilentCountOfBoth(left: seq<Output>, right: seq<Output>)
    ensures SilentCount(left + right) == SilentCount(left) + SilentCount(right)
  {
    if right == [] {
      assert left + right == left;
    } else {
      assert (left + right)[..|left + right| - 1] == left + right[..|right| - 1];
      SilentCountOfBoth(left, right[..|right| - 1]);
    }
  }

  lemma {:induction false} NoSilentOutput(outputs: seq<Output>)
    requires forall o :: 0 <= o < |outputs| ==> outputs[o].info.None?
    ensures SilentCount(outputs) == 0
  {
    if outputs != [] { NoSilentOutput(outputs[..|outputs| - 1]); }
  }

  lemma OneSilentOutput(outputs: seq<Output>, index: nat)
    requires index < |outputs| && outputs[index].info.Some?
    requires forall o :: 0 <= o < |outputs| && o != index ==> outputs[o].info.None?
    ensures SilentCount(outputs) == 1
  {
    SilentCountWithout(outputs, index);
    NoSilentOutput(Without(outputs, index));
  }

  lemma ProposedIsClean(e: Env, half: Half, to: Address, sats: nat, feeRate: nat)
    requires Proposed(e, half, to, sats, feeRate).Ok?
    ensures var p := Proposed(e, half, to, sats, feeRate).value;
      Clean(e, p) && PaysAgreed(p.outputs, to, sats)
  {
    hide CheckInput, HalfAsV2;
    HalfIsClean(e, half, to, ShareOfAmount(sats, Start), feeRate);
    var (psbt, index) := HalfAsV2(e, half, to, ShareOfAmount(sats, Start), feeRate).value;
    var p := Proposed(e, half, to, sats, feeRate).value;
    assert IsPayment(p.outputs[index], to, sats);
    OneSilentOutput(p.outputs, index);
  }

  lemma BothClean(e: Env, left: Psbt, right: Psbt, placeholder: nat)
    requires Clean(e, left) && Clean(e, right) && placeholder < |right.outputs|
    ensures Clean(e, JoinedPsbt(left, right, placeholder))
  { }

  /** The transaction wallet B makes of a checked proposal is sound, pays what was
    * agreed, keeps the proposal's coins and outputs in front, and has a fee. */
  lemma JoinedIsSound(e: Env, proposal: Proposal, half: Half)
    requires CheckedProposal(e, proposal) && Joined(e, proposal, half).Ok?
    ensures var joined := Joined(e, proposal, half).value;
      && Sound(e, joined) && Clean(e, joined) && FeeOf(joined).Some? && NoCoinTwice(joined)
      && PaysAgreed(joined.outputs, proposal.to, proposal.sats)
      && proposal.psbt.inputs < joined.inputs && proposal.psbt.outputs <= joined.outputs
  {
    hide CheckInput, HalfAsV2, Sound, FeeOf;
    var share := ShareOfAmount(proposal.sats, Join);
    HalfIsClean(e, half, proposal.to, share, proposal.feeRate);
    var (mine, placeholder) := HalfAsV2(e, half, proposal.to, share, proposal.feeRate).value;
    var joined := Joined(e, proposal, half).value;
    BothClean(e, proposal.psbt, mine, placeholder);
    CleanIsSound(e, joined);
    var rest := Without(mine.outputs, placeholder);
    forall o | 0 <= o < |rest| ensures rest[o] == mine.outputs[if o < placeholder then o else o + 1] { }
    NoSilentOutput(rest);
    SilentCountOfBoth(proposal.psbt.outputs, rest);
    FeeOkMeans(joined, proposal.feeRate);
  }

  lemma FeeOkMeans(p: Psbt, feeRate: nat)
    requires FeeOk(p, feeRate)
    ensures FeeOf(p).Some?
  { }

  /** And so is what wallet A makes of the join. */
  lemma AdoptedIsSound(e: Env, proposal: Psbt, joined: Psbt, feeRate: nat)
    requires Clean(e, proposal) && Adopted(e, proposal, joined, feeRate).Ok?
    ensures var state := Adopted(e, proposal, joined, feeRate).value;
      Sound(e, state) && Clean(e, state) && FeeOf(state).Some?
  {
    hide *;
    var state := Adopted(e, proposal, joined, feeRate).value;
    AdoptedInputsAreClean(e, proposal, joined, feeRate);
    AdoptedKeepsProposal(e, proposal, joined, feeRate);
    TakenIsClean(e, proposal, joined, state);
    AdoptedParts(e, proposal, joined, feeRate);
    CleanFrom(e, state);
    CleanIsSound(e, state);
    FeeOkMeans(state, feeRate);
  }

  lemma AdoptedParts(e: Env, proposal: Psbt, joined: Psbt, feeRate: nat)
    requires Clean(e, proposal) && Adopted(e, proposal, joined, feeRate).Ok?
    ensures var state := Adopted(e, proposal, joined, feeRate).value;
      FeeOk(state, feeRate) && state.global.flags == 0 && !HasGlobalShare(state.global)
  { }

  lemma CleanFrom(e: Env, p: Psbt)
    requires CleanInputs(e, p.inputs) && p.inputs != [] && CleanOutputs(e.curve, p.outputs) && !HasGlobalShare(p.global)
    ensures Clean(e, p)
  { }

  lemma AdoptedInputsAreClean(e: Env, proposal: Psbt, joined: Psbt, feeRate: nat)
    requires Clean(e, proposal) && Adopted(e, proposal, joined, feeRate).Ok?
    ensures CleanInputs(e, Adopted(e, proposal, joined, feeRate).value.inputs)
    ensures Adopted(e, proposal, joined, feeRate).value.inputs != []
  {
    hide CheckInput, SameSpend, Greedy, FeeOk, CleanOutputs;
    var state := Adopted(e, proposal, joined, feeRate).value;
    AdoptedKeepsProposal(e, proposal, joined, feeRate);
    forall i | 0 <= i < |state.inputs|
      ensures CheckInput(e, state.inputs[i].fact) && state.inputs[i].held == NOTHING_HELD
    {
      assert AdoptsInput(e, proposal.inputs, joined.inputs[i]);
      assert state.inputs[i] == AdoptedInput(proposal.inputs, joined.inputs[i]);
    }
  }

  lemma TakenIsClean(e: Env, proposal: Psbt, joined: Psbt, state: Psbt)
    requires Clean(e, proposal) && KeepsProposal(proposal, joined, state)
    ensures CleanOutputs(e.curve, state.outputs)
  { }

  lemma AdoptedPaysAgreed(e: Env, proposal: Psbt, joined: Psbt, feeRate: nat, to: Address, sats: nat)
    requires Adopted(e, proposal, joined, feeRate).Ok? && PaysAgreed(proposal.outputs, to, sats)
    ensures PaysAgreed(Adopted(e, proposal, joined, feeRate).value.outputs, to, sats)
  {
    hide CheckInput, Adopted, FeeOf;
    var state := Adopted(e, proposal, joined, feeRate).value;
    AdoptedKeepsProposal(e, proposal, joined, feeRate);
    forall o | 0 <= o < |state.outputs| && state.outputs[o].info.Some? ensures IsPayment(state.outputs[o], to, sats) {
      assert TakenFrom(proposal.outputs, joined.outputs[o], state.outputs[o]);
    }
  }

  // -------------------------------------------------------------------------
  // Two honest halves

  /** Every output of the half that is not the payment has a script. */
  ghost predicate HasScripts(half: Half)
  { forall o :: 0 <= o < |half.outputs| ==> half.outputs[o].script != NO_SCRIPT }

  /** Only the fee reads amounts, and no signer changes one. */
  lemma {:induction false} SameAmounts(p: seq<Output>, q: seq<Output>)
    requires |p| == |q| && forall o :: 0 <= o < |p| ==> BareOutput(p[o]) == BareOutput(q[o])
    ensures Paid(p) == Paid(q) && OutputsBytes(p) == OutputsBytes(q)
  {
    if p != [] {
      SameAmounts(p[..|p| - 1], q[..|q| - 1]);
      assert BareOutput(p[|p| - 1]) == BareOutput(q[|q| - 1]);
    }
  }

  lemma {:induction false} SameCoinValues(p: seq<Input>, q: seq<Input>)
    requires |p| == |q| && forall i :: 0 <= i < |p| ==> p[i].fact == q[i].fact
    ensures Spent(p) == Spent(q) && InputsWeight(p) == InputsWeight(q)
  {
    if p != [] { SameCoinValues(p[..|p| - 1], q[..|q| - 1]); }
  }

  /** The fee is a fact about the skeleton. */
  lemma SameFee(p: Psbt, q: Psbt)
    requires Skeleton(p) == Skeleton(q)
    ensures FeeOf(p) == FeeOf(q) && Weight(p) == Weight(q)
  {
    SkeletonParts(p, q);
    SameAmounts(p.outputs, q.outputs);
    SameCoinValues(p.inputs, q.inputs);
  }

  lemma OwnCoinFirst(own: seq<Input>, joined: Psbt, i: nat)
    requires own <= joined.inputs && NoCoinTwice(joined) && i < |joined.inputs|
    ensures OwnInput(own, joined.inputs[i].fact.coin) == if i < |own| then Some(own[i]) else None
  { }

  /** When the join keeps the proposal in front and adds only ordinary outputs,
    * the matching takes this wallet's own copies and everything else. */
  lemma GreedyOfPrefix(own: seq<Output>, theirs: seq<Output>)
    requires |own| <= |theirs|
    requires forall o :: 0 <= o < |own| ==> BareOutput(theirs[o]) == BareOutput(own[o])
    requires forall o :: |own| <= o < |theirs| ==> MayBeAdded(theirs[o])
    ensures Greedy(own, theirs).Some? && Greedy(own, theirs).value.1 == []
  {
    hide Greedy, MayBeAdded;
    PrefixIsContained(own, theirs);
    assert forall k :: Keys(own)[k] <= Keys(theirs)[k];
    RestMayBeAdded(own, theirs);
    MatchedIffContained(own, theirs);
  }

  lemma RestMayBeAdded(own: seq<Output>, theirs: seq<Output>)
    requires |own| <= |theirs|
    requires forall o :: 0 <= o < |own| ==> BareOutput(theirs[o]) == BareOutput(own[o])
    requires forall o :: |own| <= o < |theirs| ==> MayBeAdded(theirs[o])
    ensures forall k :: Keys(theirs)[k] > Keys(own)[k] ==> MayBeAdded(k)
  {
    hide MayBeAdded;
    assert theirs[..|theirs|] == theirs;
    forall k ensures Keys(theirs)[k] > Keys(own)[k] ==> MayBeAdded(k) { PrefixKeys(own, theirs, |theirs|, k); }
  }

  lemma PrefixIsContained(own: seq<Output>, theirs: seq<Output>)
    requires |own| <= |theirs|
    requires forall o :: 0 <= o < |own| ==> BareOutput(theirs[o]) == BareOutput(own[o])
    ensures Keys(own) <= Keys(theirs)
  {
    var all := MapSeq(BareOutput, theirs);
    assert all == MapSeq(BareOutput, own) + all[|own|..];
  }

  lemma PrefixKeys(own: seq<Output>, theirs: seq<Output>, n: nat, k: Output)
    requires n <= |theirs| && |own| <= |theirs|
    requires forall o :: 0 <= o < |own| ==> BareOutput(theirs[o]) == BareOutput(own[o])
    requires forall o :: |own| <= o < |theirs| ==> MayBeAdded(theirs[o])
    ensures Keys(theirs[..n])[k] > Keys(own)[k] ==> MayBeAdded(k)
  {
    var mapped, mine := MapSeq(BareOutput, theirs[..n]), MapSeq(BareOutput, own);
    if n <= |own| {
      assert mine == mapped + mine[n..];
    } else {
      var rest := mapped[|own|..];
      assert mapped == mine + rest;
      assert multiset(mapped) == multiset(mine) + multiset(rest);
      if k in multiset(rest) {
        var i :| 0 <= i < |rest| && rest[i] == k;
        assert rest[i] == BareOutput(theirs[|own| + i]);
        BareMayBeAdded(theirs[|own| + i]);
      }
    }
  }

  lemma BareMayBeAdded(o: Output)
    requires MayBeAdded(o)
    ensures MayBeAdded(BareOutput(o))
  { }

  lemma GreedyTakesAll(own: seq<Output>, theirs: seq<Output>)
    requires Extends(own, theirs)
    ensures Greedy(own, theirs).Some? && Greedy(own, theirs).value.1 == []
    ensures |Greedy(own, theirs).value.0| == |theirs|
    ensures forall o :: 0 <= o < |theirs| ==> BareOutput(Greedy(own, theirs).value.0[o]) == BareOutput(theirs[o])
  {
    GreedyOfPrefix(own, theirs);
    TakenInOrder(own, theirs);
    var taken := Greedy(own, theirs).value.0;
    forall o | 0 <= o < |theirs| ensures BareOutput(taken[o]) == BareOutput(theirs[o]) {
      assert TakenFrom(own, theirs[o], taken[o]);
    }
  }

  /** Whatever wallet B's signer has added by then, wallet A accepts an honest
    * join and ends on the very transaction wallet B built. */
  lemma HonestJoinIsAdopted(e: Env, proposal: Proposal, half: Half, update: Psbt)
    requires CheckedProposal(e, proposal) && Joined(e, proposal, half).Ok? && HasScripts(half)
    requires Skeleton(update) == Skeleton(Joined(e, proposal, half).value)
    ensures Adopted(e, proposal.psbt, update, proposal.feeRate).Ok?
    ensures Skeleton(Adopted(e, proposal.psbt, update, proposal.feeRate).value) == Skeleton(update)
  {
    hide *;
    var joined := Joined(e, proposal, half).value;
    JoinedIsSound(e, proposal, half);
    JoinedOutputs(e, proposal, half);
    JoinedGlobal(e, proposal, half);
    JoinedFee(e, proposal, half);
    CleanOfChecked(e, proposal);
    ExtensionIsAdopted(e, proposal.psbt, joined, update, proposal.feeRate);
  }

  lemma CleanOfChecked(e: Env, proposal: Proposal)
    requires CheckedProposal(e, proposal)
    ensures Clean(e, proposal.psbt)
  { }

  lemma JoinedFee(e: Env, proposal: Proposal, half: Half)
    requires Joined(e, proposal, half).Ok?
    ensures FeeOk(Joined(e, proposal, half).value, proposal.feeRate)
  { }

  /** Inputs and outputs of `own` first, ordinary outputs and checked coins after. */
  lemma ExtensionIsAdopted(e: Env, own: Psbt, joined: Psbt, update: Psbt, feeRate: nat)
    requires own.inputs < joined.inputs && Clean(e, joined) && NoCoinTwice(joined)
    requires Extends(own.outputs, joined.outputs) && FeeOk(joined, feeRate)
    requires joined.global == own.global.(flags := 0, inputCount := |joined.inputs|, outputCount := |joined.outputs|)
    requires Skeleton(update) == Skeleton(joined)
    ensures Adopted(e, own, update, feeRate).Ok?
    ensures Skeleton(Adopted(e, own, update, feeRate).value) == Skeleton(update)
  {
    hide CheckInput, Greedy, FeeOf, SameSpend, Extends, OwnInput, Weight, Skeleton;
    SkeletonParts(update, joined);
    forall i | 0 <= i < |update.inputs|
      ensures AdoptsInput(e, own.inputs, update.inputs[i])
      ensures AdoptedInput(own.inputs, update.inputs[i]).fact == joined.inputs[i].fact
      ensures OwnInput(own.inputs, update.inputs[i].fact.coin).Some? <==> i < |own.inputs|
    {
      OwnCoinFirst(own.inputs, joined, i);
      JoinedCoinIsChecked(e, joined, i);
      SameSpendOfSame(joined.inputs[i].fact, update.inputs[i].fact);
    }
    CountToN(FoundInputs(own.inputs, update.inputs), |own.inputs|);
    StillExtends(own.outputs, joined.outputs, update.outputs);
    GreedyTakesAll(own.outputs, update.outputs);
    var state := AdoptedState(own, update, Greedy(own.outputs, update.outputs).value.0);
    SameSkeletonFrom(state, update);
    SameFee(state, joined);
  }

  lemma SameSpendOfSame(left: Spend, right: Spend)
    requires left == right
    ensures SameSpend(left, right)
  { }

  lemma JoinedCoinIsChecked(e: Env, joined: Psbt, i: nat)
    requires Clean(e, joined) && i < |joined.inputs|
    ensures CheckInput(e, joined.inputs[i].fact)
  { }

  lemma {:induction false} CountToN(s: set<nat>, n: nat)
    requires forall i: nat :: i in s <==> i < n
    ensures |s| == n
  {
    if n > 0 {
      CountToN(s - {n - 1}, n - 1);
    } else {
      assert s == {};
    }
  }

  lemma JoinedGlobal(e: Env, proposal: Proposal, half: Half)
    requires CheckedProposal(e, proposal) && Joined(e, proposal, half).Ok?
    ensures var joined := Joined(e, proposal, half).value;
      && !HasGlobalShare(joined.global)
      && joined.global == proposal.psbt.global.(flags := 0, inputCount := |joined.inputs|,
              outputCount := |joined.outputs|)
  { }

  /** Wallet A's outputs in front, and only ordinary ones after them. */
  ghost predicate Extends(own: seq<Output>, joined: seq<Output>)
  {
    && |own| <= |joined|
    && (forall o :: 0 <= o < |own| ==> BareOutput(joined[o]) == BareOutput(own[o]))
    && (forall o :: |own| <= o < |joined| ==> MayBeAdded(joined[o]))
    && (forall o :: 0 <= o < |joined| && joined[o].info.None? ==> joined[o].spLabel.None?)
  }

  lemma JoinedOutputs(e: Env, proposal: Proposal, half: Half)
    requires CheckedProposal(e, proposal) && Joined(e, proposal, half).Ok? && HasScripts(half)
    ensures Extends(proposal.psbt.outputs, Joined(e, proposal, half).value.outputs)
  {
    hide CheckInput, FeeOf, HalfAsV2, NoCoinTwice, CleanInputs;
    var joined, own := Joined(e, proposal, half).value.outputs, proposal.psbt.outputs;
    var share := ShareOfAmount(proposal.sats, Join);
    HalfIsClean(e, half, proposal.to, share, proposal.feeRate);
    var (mine, placeholder) := HalfAsV2(e, half, proposal.to, share, proposal.feeRate).value;
    assert joined == own + Without(mine.outputs, placeholder);
    forall o | |own| <= o < |joined| ensures MayBeAdded(joined[o]) && joined[o].spLabel.None? {
      var at := o - |own|;
      assert joined[o] == mine.outputs[if at < placeholder then at else at + 1];
    }
  }

  lemma StillExtends(own: seq<Output>, joined: seq<Output>, update: seq<Output>)
    requires Extends(own, joined) && |update| == |joined|
    requires forall o :: 0 <= o < |joined| ==> BareOutput(update[o]) == BareOutput(joined[o])
    ensures Extends(own, update)
  { }

  /** What wallet B checks of wallet A's proposal is all of it. */
  lemma ProposalArrivesWhole(e: Env, m: Message, me: nat)
    requires ReadProposal(e, m, me).Ok? && Clean(e, m.psbt.value)
    ensures ReadProposal(e, m, me).value.psbt == m.psbt.value
  { }
}
