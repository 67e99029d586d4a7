/** Checking a single signer's silent payment work, and why it demands the
  * scripts the shared derivation produces. */
module SpVerify {
  import opened Wrappers
  import opened Sets
  import opened Curve
  import opened Chain
  import opened Derive
  import opened PsbtV2
  import opened Shares
  import Dleq

  /** The key a single-signer check counts: the taproot output key, else the
    * first derivation. */
  function ExposedKey(e: Env, f: Spend): Option<nat>
  {
    if f.utxo.Some? && f.utxo.value.script.P2tr? && e.curve.lift(f.utxo.value.script.x) != 0
    then Some(e.curve.lift(f.utxo.value.script.x))
    else if f.derivations != [] then Some(f.derivations[0].point)
    else None
  }

  function ExposedKeys(e: Env, inputs: seq<Input>): seq<nat>
  {
    if inputs == [] then [] else
    var rest := ExposedKeys(e, inputs[..|inputs| - 1]);
    var key := ExposedKey(e, inputs[|inputs| - 1].fact);
    if key.Some? then rest + [key.value] else rest
  }

  function InputKeySum(e: Env, p: Psbt): Option<nat>
  {
    var keys := ExposedKeys(e, p.inputs);
    if keys == [] then None else Combine(e.curve, keys)
  }

  predicate SameTransaction(original: Psbt, signed: Psbt)
  {
    && original.global.version == signed.global.version
    && Coins(original) == Coins(signed)
    && |original.outputs| == |signed.outputs|
    && original.global.fallback == signed.global.fallback
    && signed.global.flags == 0
    && (forall i :: 0 <= i < |original.inputs| && i < |signed.inputs| ==>
          && original.inputs[i].fact.sequence == signed.inputs[i].fact.sequence
          && original.inputs[i].fact.minTime == signed.inputs[i].fact.minTime
          && original.inputs[i].fact.minHeight == signed.inputs[i].fact.minHeight)
    && (forall o :: 0 <= o < |original.outputs| ==> SameOutput(original.outputs[o], signed.outputs[o]))
  }

  predicate SameOutput(before: Output, after: Output)
  {
    && before.amount == after.amount
    && before.info == after.info
    && ((before.info.Some? && before.script == NO_SCRIPT) || before.script == after.script)
  }

  /** How many earlier outputs pay the same scan key. */
  function Position(outputs: seq<Output>, o: nat): nat
    requires o < |outputs| && outputs[o].info.Some?
  { |Earlier(outputs, o, outputs[o].info.value.scan)| }

  function Earlier(outputs: seq<Output>, o: nat, scan: nat): set<nat>
    requires o <= |outputs|
  { set j | 0 <= j < o && outputs[j].info.Some? && outputs[j].info.value.scan == scan }

  predicate SameGroup(outputs: seq<Output>, j: nat, o: nat)
    requires j < |outputs| && o < |outputs| && outputs[o].info.Some?
  { outputs[j].info.Some? && outputs[j].info.value.scan == outputs[o].info.value.scan }

  /** What the check demands of one output. */
  predicate OutputVerified(e: Env, signed: Psbt, aSum: nat, hash: nat, o: nat)
    requires o < |signed.outputs| && signed.outputs[o].info.Some?
  {
    var info := signed.outputs[o].info.value;
    && IsPoint(e.curve, info.scan) && IsPoint(e.curve, info.spend)
    && info.scan in signed.global.shares && info.scan in signed.global.proofs
    && Dleq.Verify(e.curve, aSum, info.scan, signed.global.shares[info.scan], signed.global.proofs[info.scan])
    && OutputScript(e.curve, signed.global.shares[info.scan], info.spend, hash, Position(signed.outputs, o))
       == Some(signed.outputs[o].script)
  }

  predicate Verified(e: Env, original: Psbt, signed: Psbt)
  {
    && SameTransaction(original, signed)
    && InputKeySum(e, original).Some?
    && InputHash(e.curve, Coins(signed), InputKeySum(e, original).value).Some?
    && AllVerified(e, signed, InputKeySum(e, original).value,
                   InputHash(e.curve, Coins(signed), InputKeySum(e, original).value).value)
  }

  predicate AllVerified(e: Env, signed: Psbt, aSum: nat, hash: nat)
  {
    forall o :: 0 <= o < |signed.outputs| && signed.outputs[o].info.Some? ==> OutputVerified(e, signed, aSum, hash, o)
  }

  method Verify(e: Env, original: Psbt, signed: Psbt) returns (r: Result<seq<nat>, Refusal>)
    ensures r.Ok? <==> Verified(e, original, signed)
    ensures r.Ok? ==> forall o: nat :: o in r.value <==> o < |signed.outputs| && signed.outputs[o].info.Some?
  {
    if !SameTransaction(original, signed) { return Err(Changed); }
    var aSum := InputKeySum(e, original);
    if aSum.None? { return Err(Underivable); }
    var hash := InputHash(e.curve, Coins(signed), aSum.value);
    if hash.None? { return Err(Underivable); }
    r := VerifyOutputs(e, signed, aSum.value, hash.value);
  }

  method VerifyOutputs(e: Env, signed: Psbt, aSum: nat, hash: nat) returns (r: Result<seq<nat>, Refusal>)
    ensures r.Ok? <==> AllVerified(e, signed, aSum, hash)
    ensures r.Ok? ==> forall o: nat :: o in r.value <==> o < |signed.outputs| && signed.outputs[o].info.Some?
  {
    hide OutputVerified;
    var verified: seq<nat> := [];
    var groupOrder: seq<nat> := [];
    for o := 0 to |signed.outputs|
      invariant forall j :: 0 <= j < o && signed.outputs[j].info.Some? ==> OutputVerified(e, signed, aSum, hash, j)
      invariant forall j: nat :: j in verified <==> j < o && signed.outputs[j].info.Some?
      invariant CountsGroups(signed.outputs, o, groupOrder)
    {
      CountOutput(signed.outputs, o, groupOrder);
      if signed.outputs[o].info.None? { continue; }
      var scan := signed.outputs[o].info.value.scan;
      var k := Occurrences(groupOrder, scan);
      groupOrder := groupOrder + [scan];
      var bad := CheckOutput(e, signed, aSum, hash, o, k);
      if bad.Some? { return Err(bad.value); }
      verified := verified + [o];
    }
    return Ok(verified);
  }

  method CheckOutput(e: Env, signed: Psbt, aSum: nat, hash: nat, o: nat, k: nat) returns (bad: Option<Refusal>)
    requires o < |signed.outputs| && signed.outputs[o].info.Some? && k == Position(signed.outputs, o)
    ensures bad.None? <==> OutputVerified(e, signed, aSum, hash, o)
  {
    var info := signed.outputs[o].info.value;
    if !IsPoint(e.curve, info.scan) || !IsPoint(e.curve, info.spend) { return Some(BadRecipient); }
    if info.scan !in signed.global.shares || info.scan !in signed.global.proofs { return Some(BadShare); }
    var share := signed.global.shares[info.scan];
    if !Dleq.Verify(e.curve, aSum, info.scan, share, signed.global.proofs[info.scan]) { return Some(BadShare); }
    var expected := OutputScript(e.curve, share, info.spend, hash, k);
    if expected != Some(signed.outputs[o].script) { return Some(WrongScript); }
    return None;
  }

  function Occurrences(s: seq<nat>, x: nat): nat
  { if s == [] then 0 else Occurrences(s[..|s| - 1], x) + if s[|s| - 1] == x then 1 else 0 }

  ghost predicate CountsGroups(outputs: seq<Output>, o: nat, order: seq<nat>)
    requires o <= |outputs|
  { forall scan :: Occurrences(order, scan) == |Earlier(outputs, o, scan)| }

  lemma CountOutput(outputs: seq<Output>, o: nat, order: seq<nat>)
    requires o < |outputs| && CountsGroups(outputs, o, order)
    ensures outputs[o].info.None? ==> CountsGroups(outputs, o + 1, order)
    ensures outputs[o].info.Some? ==> CountsGroups(outputs, o + 1, order + [outputs[o].info.value.scan])
  {
    var info := outputs[o].info;
    forall scan: nat
      ensures info.None? ==> Occurrences(order, scan) == |Earlier(outputs, o + 1, scan)|
      ensures info.Some? ==> Occurrences(order + [info.value.scan], scan) == |Earlier(outputs, o + 1, scan)|
    {
      var before := Earlier(outputs, o, scan);
      assert Earlier(outputs, o + 1, scan) == if info.Some? && info.value.scan == scan then before + {o} else before;
      if info.Some? { assert (order + [info.value.scan])[..|order|] == order; }
    }
  }

  // -------------------------------------------------------------------------
  // Position count against stable-sort rank

  /** Inside each scan key group the spend keys never go down. */
  ghost predicate SpendKeysOrdered(c: Curve, outputs: seq<Output>)
  {
    forall i, j :: 0 <= i < j < |outputs| && outputs[i].info.Some? && SameGroup(outputs, j, i) ==>
      c.serialize(outputs[i].info.value.spend) <= c.serialize(outputs[j].info.value.spend)
  }

  lemma BeforeMeansLowerRank(c: Curve, outputs: seq<Output>, j: nat, o: nat)
    requires j < |outputs| && o < |outputs| && outputs[o].info.Some? && CountsBefore(c, outputs, j, o)
    ensures Rank(c, outputs, j) < Rank(c, outputs, o)
  {
    var lower := set i | 0 <= i < |outputs| && CountsBefore(c, outputs, i, j);
    var upper := set i | 0 <= i < |outputs| && CountsBefore(c, outputs, i, o);
    assert lower <= upper && j in upper && j !in lower;
    SubsetSize(lower, upper - {j});
  }

  lemma EarlierMeansLowerPosition(outputs: seq<Output>, i: nat, j: nat)
    requires i < j < |outputs| && outputs[i].info.Some? && SameGroup(outputs, j, i)
    ensures Position(outputs, i) < Position(outputs, j)
  {
    var lower, upper := Earlier(outputs, i, outputs[i].info.value.scan),
      Earlier(outputs, j, outputs[j].info.value.scan);
    assert lower <= upper && i in upper && i !in lower;
    SubsetSize(lower, upper - {i});
  }

  /** Counting positions and sorting agree on every output exactly when each
    * group's spend keys are already in order. */
  lemma PositionsAreRanksIffOrdered(c: Curve, outputs: seq<Output>)
    ensures SpendKeysOrdered(c, outputs) <==>
      forall o :: 0 <= o < |outputs| && outputs[o].info.Some? ==> Position(outputs, o) == Rank(c, outputs, o)
  {
    if SpendKeysOrdered(c, outputs) {
      forall o | 0 <= o < |outputs| && outputs[o].info.Some? ensures Position(outputs, o) == Rank(c, outputs, o) {
        assert forall j :: 0 <= j < |outputs| && CountsBefore(c, outputs, j, o) ==>
          SameGroup(outputs, j, o) && SameGroup(outputs, o, j);
        assert Earlier(outputs, o, outputs[o].info.value.scan) ==
          (set j | 0 <= j < |outputs| && CountsBefore(c, outputs, j, o));
      }
    }
    if forall o :: 0 <= o < |outputs| && outputs[o].info.Some? ==> Position(outputs, o) == Rank(c, outputs, o) {
      forall i, j | 0 <= i < j < |outputs| && outputs[i].info.Some? && SameGroup(outputs, j, i)
        ensures c.serialize(outputs[i].info.value.spend) <= c.serialize(outputs[j].info.value.spend)
      {
        EarlierMeansLowerPosition(outputs, i, j);
        if c.serialize(outputs[i].info.value.spend) > c.serialize(outputs[j].info.value.spend) {
          BeforeMeansLowerRank(c, outputs, j, i);
          assert false;
        }
      }
    }
  }

  // -------------------------------------------------------------------------
  // The two checkers

  predicate ExposesOnlyItsKey(e: Env, inputs: seq<Input>)
  { forall i :: 0 <= i < |inputs| ==> ExposedKey(e, inputs[i].fact) == InputKey(e, inputs[i].fact) }

  lemma {:induction false} ExposedKeysAreInputKeys(e: Env, inputs: seq<Input>)
    requires AllKeyed(e, inputs) && ExposesOnlyItsKey(e, inputs)
    ensures ExposedKeys(e, inputs) == KeysOf(e, inputs)
  {
    if inputs != [] {
      var most := inputs[..|inputs| - 1];
      ExposedKeysAreInputKeys(e, most);
      assert KeysOf(e, inputs) == KeysOf(e, most) + [KeyOf(e)(inputs[|inputs| - 1])];
    }
  }

  /** The signer's global share for each paid scan key is the sum of the
    * per-input shares, and its proof holds for the sum of the keys. */
  ghost predicate GlobalSharesAreTheSums(e: Env, p: Psbt, signed: Psbt, aSum: nat)
  {
    forall scan :: PaysScan(p.outputs, scan) ==>
      && scan in signed.global.shares && scan in signed.global.proofs
      && Combine(e.curve, SharesFor(p.inputs, scan)) == Some(signed.global.shares[scan])
      && Dleq.Verify(e.curve, aSum, scan, signed.global.shares[scan], signed.global.proofs[scan])
  }

  lemma SameHash(e: Env, p: Psbt, original: Psbt, signed: Psbt)
    requires Coins(original) == Coins(signed) && original.inputs == p.inputs && p.inputs != []
    requires AllKeyed(e, p.inputs) && ExposesOnlyItsKey(e, p.inputs) && InputKeySum(e, original).Some?
    ensures HashOf(e, p.inputs).Some?
    ensures HashOf(e, p.inputs) == InputHash(e.curve, Coins(signed), InputKeySum(e, original).value)
  {
    hide Combine;
    ExposedKeysAreInputKeys(e, p.inputs);
    assert Coins(original) == CoinsOf(p.inputs) != [];
  }

  lemma OutputAgrees(e: Env, p: Psbt, signed: Psbt, aSum: nat, o: nat)
    requires signed.outputs == p.outputs && o < |p.outputs| && p.outputs[o].info.Some?
    requires RecipientsOk(e.curve, p.outputs) && HashOf(e, p.inputs).Some?
    requires GlobalSharesAreTheSums(e, p, signed, aSum)
    requires Position(p.outputs, o) == Rank(e.curve, p.outputs, o)
    ensures OutputVerified(e, signed, aSum, HashOf(e, p.inputs).value, o)
       <==> ScriptAt(e, p, o) == Some(signed.outputs[o].script)
  {
    hide Rank, Position, OutputScript, HashOf, Dleq.Verify, Combine;
    assert PaysScan(p.outputs, p.outputs[o].info.value.scan);
  }

  /** On a payment both can express, the single-signer check accepts exactly the
    * scripts the shared derivation produces. */
  lemma CheckersAgree(e: Env, p: Psbt, original: Psbt, signed: Psbt)
    requires SameTransaction(original, signed) && original.inputs == p.inputs && signed.outputs == p.outputs
    requires RecipientsOk(e.curve, p.outputs) && Complete(p) && p.inputs != []
    requires AllKeyed(e, p.inputs) && ExposesOnlyItsKey(e, p.inputs)
    requires InputKeySum(e, original).Some?
    requires GlobalSharesAreTheSums(e, p, signed, InputKeySum(e, original).value)
    requires SpendKeysOrdered(e.curve, p.outputs)
    ensures Verified(e, original, signed) <==>
      forall o :: 0 <= o < |p.outputs| && p.outputs[o].info.Some? ==>
        ScriptAt(e, p, o) == Some(signed.outputs[o].script)
  {
    hide OutputVerified, ScriptAt, RecipientsOk, Complete, GlobalSharesAreTheSums, InputKeySum, InputHash, HashOf,
      Position, Rank, SpendKeysOrdered;
    var aSum := InputKeySum(e, original).value;
    assert Coins(original) == Coins(signed);
    SameHash(e, p, original, signed);
    PositionsAreRanksIffOrdered(e.curve, p.outputs);
    forall o | 0 <= o < |p.outputs| && p.outputs[o].info.Some?
      ensures OutputVerified(e, signed, aSum, HashOf(e, p.inputs).value, o)
         <==> ScriptAt(e, p, o) == Some(signed.outputs[o].script)
    { OutputAgrees(e, p, signed, aSum, o); }
  }
}
