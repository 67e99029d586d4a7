/** Finishing: check everything once more, from nothing, and build the signed
  * transaction. */
module Finishing {
  import opened Wrappers
  import opened Curve
  import opened Chain
  import opened PsbtV2
  import opened Shares
  import opened Agreement
  import opened Soundness
  import opened Fees
  import Derive
  import Dleq

  datatype Witness =
    | KeySpend(taproot: TaprootSignature)
    | PubKeyHash(ecdsa: EcdsaSignature, key: nat)

  datatype SignedTransaction = SignedTransaction(tx: Transaction, witnesses: seq<Witness>)

  function WitnessOf(held: Held): Witness
    requires CarriesSignature(held)
  {
    match held.tap
    case Some(signature) => KeySpend(signature)
    case None => PubKeyHash(held.partials[0].signature, held.partials[0].key.point)
  }

  predicate AllSigned(p: Psbt)
  { forall i :: 0 <= i < |p.inputs| ==> CarriesSignature(p.inputs[i].held) }

  predicate AllVerified(e: Env, p: Psbt, tx: Transaction)
  { forall i :: 0 <= i < |p.inputs| ==> SignatureVerifies(e, p.inputs, tx, i) == Ok(true) }

  predicate CoinsChecked(e: Env, p: Psbt)
  { forall i :: 0 <= i < |p.inputs| ==> CheckInput(e, p.inputs[i].fact) }

  lemma VerifiedAreSigned(e: Env, p: Psbt, tx: Transaction)
    requires AllVerified(e, p, tx)
    ensures AllSigned(p)
  {
    forall i | 0 <= i < |p.inputs| ensures CarriesSignature(p.inputs[i].held) {
      assert SignatureVerifies(e, p.inputs, tx, i) == Ok(true);
    }
  }

  function Witnesses(p: Psbt): (r: seq<Witness>)
    requires AllSigned(p)
    ensures |r| == |p.inputs| && forall i :: 0 <= i < |r| ==> r[i] == WitnessOf(p.inputs[i].held)
  { seq(|p.inputs|, i requires 0 <= i < |p.inputs| => WitnessOf(p.inputs[i].held)) }

  function Finalized(e: Env, p: Psbt): Result<SignedTransaction, Refusal>
  {
    if p.global.flags != 0 then Err(StillOpen)
    else if !CoinsChecked(e, p) then Err(BadInput)
    else if !Audited(e, p) then Err(BadShare)
    else if !Complete(p) then Err(Incomplete)
    else if FeeOf(p).None? then Err(BadFee)
    else if UnsignedTransaction(p).Err? then Err(Unsignable)
    else if !AllVerified(e, p, UnsignedTransaction(p).value) then Err(BadSignature)
    else
      VerifiedAreSigned(e, p, UnsignedTransaction(p).value);
      Ok(SignedTransaction(UnsignedTransaction(p).value, Witnesses(p)))
  }

  method FinalizeState(e: Env, p: Psbt) returns (r: Result<SignedTransaction, Refusal>)
    ensures r == Finalized(e, p)
  {
    hide CheckInput, Audited, SignatureVerifies, UnsignedTransaction;
    if p.global.flags != 0 { return Err(StillOpen); }
    for i := 0 to |p.inputs|
      invariant forall j :: 0 <= j < i ==> CheckInput(e, p.inputs[j].fact)
    {
      if !CheckInput(e, p.inputs[i].fact) { return Err(BadInput); }
    }
    var shares := Audit(e, p);
    if shares.Err? { return Err(BadShare); }
    NothingMissing(p, shares.value);
    if shares.value.Missing() != {} { return Err(Incomplete); }
    var fee := Fee(p);
    if fee.None? { return Err(BadFee); }
    var unsigned := UnsignedTransaction(p);
    if unsigned.Err? { return Err(Unsignable); }
    r := Sealed(e, p, unsigned.value);
  }

  method Sealed(e: Env, p: Psbt, tx: Transaction) returns (r: Result<SignedTransaction, Refusal>)
    ensures r.Ok? <==> AllVerified(e, p, tx)
    ensures r.Ok? ==> AllSigned(p) && r.value == SignedTransaction(tx, Witnesses(p))
    ensures r.Err? ==> r.why == BadSignature
  {
    var witnesses: seq<Witness> := [];
    for i := 0 to |p.inputs|
      invariant |witnesses| == i
      invariant forall j :: 0 <= j < i ==> SignatureVerifies(e, p.inputs, tx, j) == Ok(true)
      invariant forall j :: 0 <= j < i ==>
        CarriesSignature(p.inputs[j].held) && witnesses[j] == WitnessOf(p.inputs[j].held)
    {
      var verified := SignatureVerifies(e, p.inputs, tx, i);
      if verified != Ok(true) { return Err(BadSignature); }
      witnesses := witnesses + [WitnessOf(p.inputs[i].held)];
    }
    assert witnesses == Witnesses(p);
    return Ok(SignedTransaction(tx, witnesses));
  }

  lemma NothingMissing(p: Psbt, shares: Shares)
    requires Describes(shares, p)
    ensures shares.Missing() == {} <==> Complete(p)
  {
    if shares.Missing() == {} {
      forall o, i | 0 <= o < |p.outputs| && p.outputs[o].info.Some? && 0 <= i < |p.inputs|
        ensures p.outputs[o].info.value.scan in p.inputs[i].held.shares
      {
        assert PaysScan(p.outputs, p.outputs[o].info.value.scan);
        assert (i, p.outputs[o].info.value.scan) !in shares.Missing();
      }
    }
    if Complete(p) {
      forall scan, input: nat | scan in shares.scanKeys && input < |p.inputs|
        ensures (input, scan) in shares.verified
      {
        var o :| 0 <= o < |p.outputs| && p.outputs[o].info.Some? && p.outputs[o].info.value.scan == scan;
        assert Completed(p, o);
      }
    }
  }

  // -------------------------------------------------------------------------

  lemma FinalizedMeans(e: Env, p: Psbt)
    requires Finalized(e, p).Ok?
    ensures p.global.flags == 0 && CoinsChecked(e, p) && Audited(e, p) && Complete(p) && FeeOf(p).Some?
    ensures UnsignedTransaction(p) == Ok(Finalized(e, p).value.tx) && AllVerified(e, p, Finalized(e, p).value.tx)
    ensures AllSigned(p)
  { VerifiedAreSigned(e, p, Finalized(e, p).value.tx); }

  /** Whatever was only ever built up by checked steps passes the check from
    * nothing, as soon as every input is signed. */
  lemma SoundIsFinishable(e: Env, p: Psbt)
    requires Sound(e, p) && FeeOf(p).Some? && AllSigned(p) && p.inputs != []
    ensures Finalized(e, p).Ok?
    ensures UnsignedTransaction(p) == Ok(Finalized(e, p).value.tx)
  { }

  lemma SignedIsUnsigned(e: Env, p: Psbt) returns (tx: Transaction)
    requires Sound(e, p) && AllSigned(p) && p.inputs != []
    ensures UnsignedTransaction(p) == Ok(tx)
  {
    assert CarriesSignature(p.inputs[0].held);
    tx := UnsignedTransaction(p).value;
  }

  lemma ScriptIsThere(p: Psbt, o: nat)
    requires UnsignedTransaction(p).Ok? && o < |p.outputs|
    ensures p.outputs[o].script != NO_SCRIPT
  { }

  /** So a finished transaction pays every silent payment at the script the lone
    * sender would compute, without any wallet trusting the other's shares. */
  lemma FinishedPaysLikeALoneSender(e: Env, p: Psbt, o: nat)
    requires PrimeOrder(e.curve) && Dleq.Sound(e.curve)
    requires Finalized(e, p).Ok? && o < |p.outputs| && p.outputs[o].info.Some?
    ensures o < |Finalized(e, p).value.tx.outputs|
    ensures Finalized(e, p).value.tx.outputs[o].value == p.outputs[o].amount
    ensures Some(Finalized(e, p).value.tx.outputs[o].script) ==
      Derive.LoneSender(e.curve, Sum(e.curve, KeysOf(e, p.inputs)), CoinsOf(p.inputs),
                        p.outputs[o].info.value.scan, p.outputs[o].info.value.spend, Rank(e.curve, p.outputs, o))
  {
    hide ScriptAt, CheckInput, SignatureVerifies;
    FinalizedMeans(e, p);
    ScriptIsThere(p, o);
    assert Completed(p, o);
    CheckedSharesAreHonest(e, p, o);
    SharedScriptIsTheLoneSenders(e, p, o);
  }
}
