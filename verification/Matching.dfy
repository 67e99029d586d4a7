/** What the first wallet's check of a join guarantees: the one-by-one matching
  * of outputs is exact, and no proposed coin can be dropped or spent twice. */
module Matching {
  import opened Wrappers
  import opened Sets
  import opened Chain
  import opened PsbtV2
  import opened Absorb
  import opened Soundness
  import opened Building
  import Fees

  // -------------------------------------------------------------------------
  // Outputs

  /** Outputs by what is compared about them, with their multiplicity. */
  function Keys(outputs: seq<Output>): multiset<Output>
  { multiset(MapSeq(BareOutput, outputs)) }

  /** Whatever `theirs` has more of than `own` is an ordinary output. */
  ghost predicate OnlyAdds(own: seq<Output>, theirs: seq<Output>)
  { forall k :: Keys(theirs)[k] > Keys(own)[k] ==> MayBeAdded(k) }

  lemma KeysOfLast(outputs: seq<Output>)
    requires outputs != []
    ensures Keys(outputs) == Keys(outputs[..|outputs| - 1]) + multiset{BareOutput(outputs[|outputs| - 1])}
  {
    var mapped := MapSeq(BareOutput, outputs);
    assert mapped == MapSeq(BareOutput, outputs[..|outputs| - 1]) + [BareOutput(outputs[|outputs| - 1])];
  }

  lemma PositionMeansMember(left: seq<Output>, bare: Output)
    ensures PositionOf(left, bare).Some? <==> Keys(left)[bare] > 0
  { }

  /** What one more matched output takes and leaves. */
  lemma GreedyStep(own: seq<Output>, theirs: seq<Output>)
    requires theirs != [] && Greedy(own, theirs).Some?
    ensures Greedy(own, theirs[..|theirs| - 1]).Some?
    ensures var last := theirs[|theirs| - 1];
      var (taken, left) := Greedy(own, theirs).value;
      var (before, unclaimed) := Greedy(own, theirs[..|theirs| - 1]).value;
      match PositionOf(unclaimed, BareOutput(last))
      case Some(i) => taken == before + [unclaimed[i]] && left == Without(unclaimed, i)
      case None => MayBeAdded(last) && taken == before + [CleanOutput(last)] && left == unclaimed
  { }

  lemma OnlyAddsOneMore(own: seq<Output>, theirs: seq<Output>)
    requires theirs != []
    ensures var last := BareOutput(theirs[|theirs| - 1]);
      OnlyAdds(own, theirs) <==>
        OnlyAdds(own, theirs[..|theirs| - 1]) && (Keys(own)[last] <= Keys(theirs[..|theirs| - 1])[last] ==>
          MayBeAdded(last))
  {
    hide Keys, MayBeAdded;
    KeysOfLast(theirs);
    var most := theirs[..|theirs| - 1];
    forall k ensures Keys(theirs)[k] == Keys(most)[k] + if k == BareOutput(theirs[|theirs| - 1]) then 1 else 0 { }
  }

  /** Taking one more output when what is left is what has not been asked for. */
  lemma GreedyOneMore(own: seq<Output>, theirs: seq<Output>)
    requires theirs != [] && Greedy(own, theirs[..|theirs| - 1]).Some?
    requires Keys(Greedy(own, theirs[..|theirs| - 1]).value.1) == Keys(own) - Keys(theirs[..|theirs| - 1])
    ensures var last, asked := BareOutput(theirs[|theirs| - 1]), Keys(theirs[..|theirs| - 1]);
      && (Greedy(own, theirs).Some? <==> (Keys(own)[last] <= asked[last] ==> MayBeAdded(last)))
      && (Greedy(own, theirs).Some? ==> Keys(Greedy(own, theirs).value.1) == Keys(own) - (asked + multiset{last}))
  {
    hide Keys;
    var last := BareOutput(theirs[|theirs| - 1]);
    var left := Greedy(own, theirs[..|theirs| - 1]).value.1;
    var position := PositionOf(left, last);
    PositionMeansMember(left, last);
    LessOneMore(Keys(own), Keys(theirs[..|theirs| - 1]), last);
    if position.Some? {
      KeysWithout(left, position.value);
      assert Keys(Without(left, position.value)) == Keys(left) - multiset{last};
    }
  }

  lemma LessOneMore(own: multiset<Output>, asked: multiset<Output>, last: Output)
    ensures own - (asked + multiset{last}) == (own - asked) - multiset{last}
    ensures (own - asked)[last] == 0 ==> (own - asked) - multiset{last} == own - asked
  { }

  lemma KeysWithout(left: seq<Output>, i: nat)
    requires i < |left|
    ensures Keys(left) == Keys(Without(left, i)) + multiset{BareOutput(left[i])}
  { MapWithout(BareOutput, left, i); }

  /** Matching one by one, first come first served, succeeds exactly when it can:
    * nothing is left of this wallet's outputs but what `theirs` is short of. */
  lemma {:induction false} GreedyIsExact(own: seq<Output>, theirs: seq<Output>)
    ensures Greedy(own, theirs).Some? <==> OnlyAdds(own, theirs)
    ensures Greedy(own, theirs).Some? ==> Keys(Greedy(own, theirs).value.1) == Keys(own) - Keys(theirs)
  {
    if theirs == [] {
      assert Keys(theirs) == multiset{};
    } else {
      hide OnlyAdds, Keys, MayBeAdded;
      GreedyIsExact(own, theirs[..|theirs| - 1]);
      OnlyAddsOneMore(own, theirs);
      KeysOfLast(theirs);
      if Greedy(own, theirs[..|theirs| - 1]).Some? { GreedyOneMore(own, theirs); }
    }
  }

  /** So a join is matched with nothing left over if and only if this wallet's
    * outputs are all in it, as often as proposed, and no silent payment was added. */
  lemma MatchedIffContained(own: seq<Output>, theirs: seq<Output>)
    ensures (Greedy(own, theirs).Some? && Greedy(own, theirs).value.1 == [])
       <==> Keys(own) <= Keys(theirs) && OnlyAdds(own, theirs)
  {
    GreedyIsExact(own, theirs);
    if Greedy(own, theirs).Some? {
      var left := Greedy(own, theirs).value.1;
      assert |Keys(left)| == |left|;
      if Keys(own) <= Keys(theirs) { assert Keys(left) == multiset{}; }
      if left == [] {
        assert Keys(own) - Keys(theirs) == multiset{};
        forall k ensures Keys(own)[k] <= Keys(theirs)[k] {
          assert (Keys(own) - Keys(theirs))[k] == 0;
        }
      }
    }
  }

  /** An output of the result is this wallet's own copy, or an ordinary output
    * somebody added. */
  ghost predicate TakenFrom(own: seq<Output>, theirs: Output, taken: Output)
  {
    || (taken in own && BareOutput(taken) == BareOutput(theirs))
    || (MayBeAdded(theirs) && taken == CleanOutput(theirs))
  }

  lemma SilentCountAppend(s: seq<Output>, o: Output)
    ensures SilentCount(s + [o]) == SilentCount(s) + if o.info.Some? then 1 else 0
  { assert (s + [o])[..|s|] == s; }

  lemma {:induction false} SilentCountWithout(s: seq<Output>, i: nat)
    requires i < |s|
    ensures SilentCount(s) == SilentCount(Without(s, i)) + if s[i].info.Some? then 1 else 0
  {
    hide SilentCount;
    var most, last := s[..|s| - 1], s[|s| - 1];
    assert s == most + [last];
    SilentCountAppend(most, last);
    if i == |s| - 1 {
      assert Without(s, i) == most;
    } else {
      SilentCountWithout(most, i);
      SilentCountAppend(Without(most, i), last);
      assert Without(s, i) == Without(most, i) + [last];
    }
  }

  ghost predicate Taking(own: seq<Output>, theirs: seq<Output>, taken: seq<Output>)
  { |taken| == |theirs| && forall i :: 0 <= i < |taken| ==> TakenFrom(own, theirs[i], taken[i]) }

  /** The result keeps the joined order, and is made of nothing but this wallet's
    * own outputs and ordinary ones that were added. */
  lemma {:induction false} TakenInOrder(own: seq<Output>, theirs: seq<Output>)
    requires Greedy(own, theirs).Some?
    ensures Taking(own, theirs, Greedy(own, theirs).value.0)
    ensures forall o :: o in Greedy(own, theirs).value.1 ==> o in own
  {
    if theirs != [] {
      TakenInOrder(own, theirs[..|theirs| - 1]);
      GreedyStep(own, theirs);
    }
  }

  lemma MovedOne(unclaimed: seq<Output>, before: seq<Output>, i: nat)
    requires i < |unclaimed|
    ensures multiset(before + [unclaimed[i]]) + multiset(Without(unclaimed, i))
       == multiset(before) + multiset(unclaimed)
    ensures SilentCount(before + [unclaimed[i]]) + SilentCount(Without(unclaimed, i))
       == SilentCount(before) + SilentCount(unclaimed)
  {
    assert unclaimed == unclaimed[..i] + [unclaimed[i]] + unclaimed[i + 1..];
    SilentCountWithout(unclaimed, i);
    assert (before + [unclaimed[i]])[..|before|] == before;
  }

  /** Every one of this wallet's own outputs is taken as it was built or left, and
    * no silent payment comes from elsewhere. */
  lemma {:induction false} TakenAsBuilt(own: seq<Output>, theirs: seq<Output>)
    requires Greedy(own, theirs).Some?
    ensures var (taken, left) := Greedy(own, theirs).value;
      multiset(own) <= multiset(taken) + multiset(left) && SilentCount(taken) + SilentCount(left) == SilentCount(own)
  {
    if theirs != [] {
      var most, last := theirs[..|theirs| - 1], theirs[|theirs| - 1];
      TakenAsBuilt(own, most);
      GreedyStep(own, theirs);
      var (before, unclaimed) := Greedy(own, most).value;
      var position := PositionOf(unclaimed, BareOutput(last));
      if position.Some? {
        MovedOne(unclaimed, before, position.value);
      } else {
        assert (before + [CleanOutput(last)])[..|before|] == before;
      }
    }
  }

  // -------------------------------------------------------------------------
  // Coins

  function CoinSet(inputs: seq<Input>): set<OutPoint>
  { set i | 0 <= i < |inputs| :: inputs[i].fact.coin }

  lemma {:induction false} FewerCoinsThanInputs(inputs: seq<Input>)
    ensures |CoinSet(inputs)| <= |inputs|
  {
    if inputs != [] {
      var most := inputs[..|inputs| - 1];
      FewerCoinsThanInputs(most);
      assert CoinSet(inputs) == CoinSet(most) + {inputs[|inputs| - 1].fact.coin};
    }
  }

  function CoinsAt(inputs: seq<Input>, at: set<nat>): set<OutPoint>
    requires forall i :: i in at ==> i < |inputs|
  { set i | i in at :: inputs[i].fact.coin }

  ghost predicate DistinctIn(inputs: seq<Input>)
  { forall i, j :: 0 <= i < j < |inputs| ==> inputs[i].fact.coin != inputs[j].fact.coin }

  lemma {:induction false} DistinctCoins(inputs: seq<Input>, at: set<nat>)
    requires forall i :: i in at ==> i < |inputs|
    requires DistinctIn(inputs)
    ensures |CoinsAt(inputs, at)| == |at|
    decreases at
  {
    if at != {} {
      var i :| i in at;
      var rest := CoinsAt(inputs, at - {i});
      DistinctCoins(inputs, at - {i});
      assert CoinsAt(inputs, at) == rest + {inputs[i].fact.coin};
      NotAmongOthers(inputs, at - {i}, i);
    } else {
      assert CoinsAt(inputs, at) == {};
    }
  }

  lemma NotAmongOthers(inputs: seq<Input>, at: set<nat>, i: nat)
    requires forall j :: j in at ==> j < |inputs|
    requires DistinctIn(inputs) && i < |inputs| && i !in at
    ensures inputs[i].fact.coin !in CoinsAt(inputs, at)
  { }

  /** As many coins found as were proposed, and none twice: so every proposed
    * coin is there. */
  lemma EveryCoinFound(own: seq<Input>, joined: Psbt)
    requires NoCoinTwice(joined) && |FoundInputs(own, joined.inputs)| == |own|
    ensures forall coin :: coin in CoinSet(own) ==> coin in CoinSet(joined.inputs)
    ensures forall i, j :: 0 <= i < j < |own| ==> own[i].fact.coin != own[j].fact.coin
  {
    var found := CoinsAt(joined.inputs, FoundInputs(own, joined.inputs));
    DistinctCoins(joined.inputs, FoundInputs(own, joined.inputs));
    FewerCoinsThanInputs(own);
    forall coin | coin in found ensures coin in CoinSet(own) {
      var i :| i in FoundInputs(own, joined.inputs) && joined.inputs[i].fact.coin == coin;
    }
    SubsetSize(found, CoinSet(own));
    NoneListedTwice(own);
  }

  /** As many different coins as inputs: no coin is listed twice. */
  lemma NoneListedTwice(own: seq<Input>)
    requires |CoinSet(own)| == |own|
    ensures forall i, j :: 0 <= i < j < |own| ==> own[i].fact.coin != own[j].fact.coin
  {
    if i, j :| 0 <= i < j < |own| && own[i].fact.coin == own[j].fact.coin {
      hide CoinSet;
      SameCoinsWithout(own, i, j);
      FewerCoinsThanInputs(Without(own, j));
      assert false;
    }
  }

  lemma SameCoinsWithout(own: seq<Input>, i: nat, j: nat)
    requires i < j < |own| && own[i].fact.coin == own[j].fact.coin
    ensures CoinSet(own) == CoinSet(Without(own, j))
  {
    forall k | 0 <= k < |own| ensures own[k].fact.coin in CoinSet(Without(own, j)) {
      var at := if k < j then k else if k == j then i else k - 1;
      assert Without(own, j)[at].fact.coin == own[k].fact.coin;
    }
    forall k | 0 <= k < |own| - 1 ensures Without(own, j)[k].fact.coin in CoinSet(own) {
      assert Without(own, j)[k] == if k < j then own[k] else own[k + 1];
    }
  }

  ghost predicate Holds(inputs: seq<Input>, wanted: Input)
  { exists j :: 0 <= j < |inputs| && inputs[j] == wanted }

  /** Everything the first wallet gets from accepting a join: its coins each spent
    * exactly once and as it proposed, its outputs as it built them, no further
    * silent payment, and somebody else's coins beside its own. */
  ghost predicate KeepsProposal(proposal: Psbt, joined: Psbt, state: Psbt)
  {
    && Coins(state) == Coins(joined) && NoCoinTwice(state)
    && (forall i :: 0 <= i < |proposal.inputs| ==> Holds(state.inputs, proposal.inputs[i]))
    && |state.inputs| > |proposal.inputs|
    && Taking(proposal.outputs, joined.outputs, state.outputs)
    && multiset(proposal.outputs) <= multiset(state.outputs)
    && SilentCount(state.outputs) == SilentCount(proposal.outputs)
  }

  lemma AdoptedKeepsProposal(e: Env, proposal: Psbt, joined: Psbt, feeRate: nat)
    requires Adopted(e, proposal, joined, feeRate).Ok?
    ensures KeepsProposal(proposal, joined, Adopted(e, proposal, joined, feeRate).value)
  {
    hide CheckInput, SameSpend, OwnInput, Greedy, Fees.FeeOk, AdoptedInput;
    var state := Adopted(e, proposal, joined, feeRate).value;
    TakenInOrder(proposal.outputs, joined.outputs);
    TakenAsBuilt(proposal.outputs, joined.outputs);
    AdoptedCoins(proposal.inputs, joined, state.inputs);
    EveryCoinFound(proposal.inputs, joined);
    forall i | 0 <= i < |proposal.inputs| ensures Holds(state.inputs, proposal.inputs[i]) {
      OwnInputIsHeld(proposal.inputs, joined, state.inputs, i);
    }
    FewerFoundThanInputs(proposal.inputs, joined);
    assert Coins(state) == Coins(joined);
  }

  lemma AdoptedCoins(own: seq<Input>, joined: Psbt, inputs: seq<Input>)
    requires inputs == MapSeq((i: Input) => AdoptedInput(own, i), joined.inputs)
    ensures |inputs| == |joined.inputs| && forall i :: 0 <= i < |inputs| ==>
      inputs[i].fact.coin == joined.inputs[i].fact.coin
  { }

  lemma OwnInputIsHeld(own: seq<Input>, joined: Psbt, inputs: seq<Input>, i: nat)
    requires inputs == MapSeq((i: Input) => AdoptedInput(own, i), joined.inputs)
    requires i < |own| && own[i].fact.coin in CoinSet(joined.inputs)
    requires forall i, j :: 0 <= i < j < |own| ==> own[i].fact.coin != own[j].fact.coin
    ensures Holds(inputs, own[i])
  { }

  lemma FewerFoundThanInputs(own: seq<Input>, joined: Psbt)
    requires NoCoinTwice(joined)
    ensures |FoundInputs(own, joined.inputs)| <= |joined.inputs|
  {
    var found := FoundInputs(own, joined.inputs);
    DistinctCoins(joined.inputs, found);
    FewerCoinsThanInputs(joined.inputs);
    SubsetSize(CoinsAt(joined.inputs, found), CoinSet(joined.inputs));
  }
}
