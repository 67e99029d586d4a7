/** One shared send's PSBT: what is fixed about it and what it collects. */
module PsbtV2 {
  import opened Wrappers
  import opened Chain
  import Dleq

  /** The two keys of `PSBT_OUT_SP_V0_INFO`. Bytes that are not two points stand
    * for a pair outside the curve. */
  datatype Info = Info(scan: nat, spend: nat)

  datatype PartialSig = PartialSig(key: PubKey, signature: EcdsaSignature)

  /** What an input says about the coin it spends. It never changes once joined. */
  datatype Spend = Spend(
    coin: OutPoint,
    sequence: Option<nat>,
    minTime: Option<nat>,
    minHeight: Option<nat>,
    utxo: Option<TxOut>,
    previous: Option<Transaction>,
    derivations: seq<PubKey>,
    tapInternalKey: Option<nat>,
    sighash: Option<nat>
  )

  /** What an input collects: shares and proofs by scan key, and signatures. */
  datatype Held = Held(
    shares: map<nat, nat>,
    proofs: map<nat, Dleq.Proof>,
    partials: seq<PartialSig>,
    tap: Option<TaprootSignature>
  )

  const NOTHING_HELD := Held(map[], map[], [], None)

  datatype Input = Input(fact: Spend, held: Held)

  datatype Output = Output(
    amount: nat,
    script: Script,
    info: Option<Info>,
    spLabel: Option<nat>
  )

  datatype Global = Global(
    version: int,
    fallback: Option<nat>,
    flags: nat,
    shares: map<nat, nat>,
    proofs: map<nat, Dleq.Proof>,
    inputCount: nat,
    outputCount: nat
  )

  datatype Psbt = Psbt(global: Global, inputs: seq<Input>, outputs: seq<Output>)

  /** Why something was refused: one name for each group of checks. */
  datatype Refusal =
    | GlobalShare | Changed | StillOpen | BadRecipient | BadInput | BadShare | Underivable
    | WrongScript | Unsignable | BadSignature | Incomplete | BadTerms | BadHalf | BadProposal
    | CoinTwice | Dropped | NoNewCoins | BadFee | NotMyTurn | NothingNew | WrongTransaction
    | WrongStage | MissingCoin | BadOutput | Malformed

  const OPEN_TO_BOTH: nat := 0x03
  const FINAL_SEQUENCE: nat := 0xffff_ffff

  /** The x coordinate of the BIP-341 point nobody knows a private key for. */
  const NUMS_KEY: nat := 0x50929b74c1a04954b78b4b6035e97a5e078a5a0f28ec96d547bfee9ace803ac0

  predicate HasGlobalShare(g: Global)
  { g.shares != map[] || g.proofs != map[] }

  function SequenceOf(f: Spend): nat
  { if f.sequence.Some? then f.sequence.value else FINAL_SEQUENCE }

  function FallbackLockTime(g: Global): nat
  { if g.fallback.Some? then g.fallback.value else 0 }

  /** Who an input stands for in BIP-352: the derivation key whose hash is the
    * witness program, or the taproot output key with even y. */
  function InputKey(e: Env, f: Spend): Option<nat>
  {
    if f.utxo.None? then None else
    match f.utxo.value.script
    case P2wpkh(program) => FirstMatching(e, f.derivations, program)
    case P2tr(x) =>
      if f.tapInternalKey == Some(NUMS_KEY) || e.curve.lift(x) == 0 then None
      else Some(e.curve.lift(x))
    case Plain(_) => None
  }

  function FirstMatching(e: Env, keys: seq<PubKey>, program: nat): (r: Option<nat>)
    ensures r.Some? ==> e.hash160(r.value) == program && PubKey(r.value, true) in keys
    ensures r.None? <==> forall k :: k in keys && k.compressed ==> e.hash160(k.point) != program
  {
    if keys == [] then None
    else if keys[0].compressed && e.hash160(keys[0].point) == program then Some(keys[0].point)
    else
      assert forall k :: k in keys ==> k == keys[0] || k in keys[1..];
      FirstMatching(e, keys[1..], program)
  }

  /** The key that can sign for this coin, as its script says. */
  predicate KeyFits(e: Env, f: Spend, key: nat)
  {
    && f.utxo.Some?
    && match f.utxo.value.script
       case P2wpkh(program) => e.hash160(key) == program && PubKey(key, true) in f.derivations
       case P2tr(x) => key == e.curve.lift(x) != 0 && f.tapInternalKey != Some(NUMS_KEY)
       case Plain(_) => false
  }

  /** An input stands for a key its coin pays, and for none exactly when there is none. */
  lemma InputKeyIsTheCoins(e: Env, f: Spend)
    ensures InputKey(e, f).Some? ==> KeyFits(e, f, InputKey(e, f).value)
    ensures InputKey(e, f).None? ==> forall key :: !KeyFits(e, f, key)
  {
    if InputKey(e, f).None? && f.utxo.Some? && f.utxo.value.script.P2wpkh? {
      forall key ensures !KeyFits(e, f, key) {
        assert PubKey(key, true) in f.derivations ==> e.hash160(PubKey(key, true).point) != f.utxo.value.script.program;
      }
    }
  }

  /** The previous transaction hashes to the coin and created exactly this output. */
  predicate ProvesItsAmount(e: Env, f: Spend)
  {
    && f.utxo.Some? && f.previous.Some?
    && e.txid(f.previous.value) == f.coin.txid
    && f.coin.vout < |f.previous.value.outputs|
    && f.previous.value.outputs[f.coin.vout] == f.utxo.value
  }

  predicate SighashIsAll(f: Spend)
  { f.sighash.None? || f.sighash == Some(SIGHASH_ALL) }

  predicate CheckInput(e: Env, f: Spend)
  { InputKey(e, f).Some? && ProvesItsAmount(e, f) && SighashIsAll(f) && f.sequence.Some? }

  predicate CarriesSignature(h: Held)
  { h.partials != [] || h.tap.Some? }

  function Coins(p: Psbt): seq<OutPoint>
  { seq(|p.inputs|, i requires 0 <= i < |p.inputs| => p.inputs[i].fact.coin) }

  function SignedInputs(p: Psbt): set<nat>
  { set i | 0 <= i < |p.inputs| && CarriesSignature(p.inputs[i].held) }

  predicate NoCoinTwice(p: Psbt)
  { forall i, j :: 0 <= i < j < |p.inputs| ==> p.inputs[i].fact.coin != p.inputs[j].fact.coin }

  // -------------------------------------------------------------------------
  // The transaction the signers sign

  predicate NeedsTime(i: Input) { i.fact.minTime.Some? && i.fact.minHeight.None? }

  predicate NeedsHeight(i: Input) { i.fact.minHeight.Some? && i.fact.minTime.None? }

  predicate AsksLockTime(i: Input) { i.fact.minTime.Some? || i.fact.minHeight.Some? }

  function Latest(values: seq<Option<nat>>): nat
  {
    if values == [] then 0 else
    var rest := Latest(values[1..]);
    match values[0]
    case None => rest
    case Some(v) => if v > rest then v else rest
  }

  /** BIP-370 "Determining Lock Time". */
  function LockTime(p: Psbt): Option<nat>
  {
    if (exists i :: 0 <= i < |p.inputs| && NeedsTime(p.inputs[i]))
       && (exists i :: 0 <= i < |p.inputs| && NeedsHeight(p.inputs[i])) then None
    else if forall i :: 0 <= i < |p.inputs| ==> !AsksLockTime(p.inputs[i]) then
      Some(FallbackLockTime(p.global))
    else if forall i :: 0 <= i < |p.inputs| ==> !NeedsTime(p.inputs[i]) then
      Some(Latest(MapSeq((i: Input) => i.fact.minHeight, p.inputs)))
    else Some(Latest(MapSeq((i: Input) => i.fact.minTime, p.inputs)))
  }

  lemma {:induction false} LatestIsLargest(values: seq<Option<nat>>)
    ensures forall i :: 0 <= i < |values| && values[i].Some? ==> values[i].value <= Latest(values)
    ensures Latest(values) == 0 || Some(Latest(values)) in values
  {
    if values != [] {
      LatestIsLargest(values[1..]);
      assert forall i :: 0 < i < |values| ==> values[i] == values[1..][i - 1];
    }
  }

  /** A lock time is found unless one input insists on a time and another on a
    * height, and then it is late enough for every input, of one kind throughout. */
  lemma LockTimeSuitsEveryInput(p: Psbt)
    ensures LockTime(p).None? <==>
      (exists i :: 0 <= i < |p.inputs| && NeedsTime(p.inputs[i]))
        && (exists i :: 0 <= i < |p.inputs| && NeedsHeight(p.inputs[i]))
    ensures LockTime(p).Some? ==>
      || (forall i :: 0 <= i < |p.inputs| ==> !AsksLockTime(p.inputs[i]))
      || (forall i :: 0 <= i < |p.inputs| && AsksLockTime(p.inputs[i]) ==>
            p.inputs[i].fact.minHeight.Some? && p.inputs[i].fact.minHeight.value <= LockTime(p).value)
      || (forall i :: 0 <= i < |p.inputs| && AsksLockTime(p.inputs[i]) ==>
            p.inputs[i].fact.minTime.Some? && p.inputs[i].fact.minTime.value <= LockTime(p).value)
  {
    var heights, times := MapSeq((i: Input) => i.fact.minHeight, p.inputs),
      MapSeq((i: Input) => i.fact.minTime, p.inputs);
    LatestIsLargest(heights);
    LatestIsLargest(times);
    if (exists i :: 0 <= i < |p.inputs| && AsksLockTime(p.inputs[i])) && LockTime(p).Some? {
      if forall i :: 0 <= i < |p.inputs| ==> !NeedsTime(p.inputs[i]) {
        forall i | 0 <= i < |p.inputs| && AsksLockTime(p.inputs[i])
          ensures p.inputs[i].fact.minHeight.Some? && p.inputs[i].fact.minHeight.value <= LockTime(p).value
        {
          assert heights[i] == p.inputs[i].fact.minHeight;
        }
      } else {
        forall i | 0 <= i < |p.inputs| && AsksLockTime(p.inputs[i])
          ensures p.inputs[i].fact.minTime.Some? && p.inputs[i].fact.minTime.value <= LockTime(p).value
        {
          assert times[i] == p.inputs[i].fact.minTime;
        }
      }
    }
  }

  function UnsignedTransaction(p: Psbt): Result<Transaction, Refusal>
  {
    if LockTime(p).None? then Err(Unsignable)
    else if exists i :: 0 <= i < |p.inputs| && p.inputs[i].fact.sequence.None? then Err(Unsignable)
    else if exists o :: 0 <= o < |p.outputs| && p.outputs[o].script == NO_SCRIPT then Err(Unsignable)
    else
      Ok(Transaction(
        p.global.version,
        LockTime(p).value,
        MapSeq((i: Input) => TxIn(i.fact.coin, SequenceOf(i.fact)), p.inputs),
        MapSeq((o: Output) => TxOut(o.amount, o.script), p.outputs)))
  }

  /** Every previous output, which every input must state. */
  function Prevouts(inputs: seq<Input>): Option<seq<TxOut>>
  {
    if exists i :: 0 <= i < |inputs| && inputs[i].fact.utxo.None? then None
    else Some(seq(|inputs|, i requires 0 <= i < |inputs| => inputs[i].fact.utxo.value))
  }

  /** Check one input's signature against `tx`. `Ok(false)` means there is none;
    * one that is present and wrong is a refusal. */
  function SignatureVerifies(e: Env, inputs: seq<Input>, tx: Transaction, index: nat): (r: Result<bool, Refusal>)
    requires index < |inputs|
    ensures r == Ok(false) <==> InputKey(e, inputs[index].fact).Some? && !CarriesSignature(inputs[index].held)
  {
    var fact, held := inputs[index].fact, inputs[index].held;
    var key := InputKey(e, fact);
    if key.None? then Err(BadSignature)
    else if fact.utxo.value.script.P2wpkh? then
      if held.tap.Some? then Err(BadSignature)
      else if held.partials == [] then Ok(false)
      else if |held.partials| > 1 then Err(BadSignature)
      else
        var found := held.partials[0];
        if !found.key.compressed || found.key.point != key.value then Err(BadSignature)
        else if found.signature.sighash != SIGHASH_ALL then Err(BadSignature)
        else if !e.ecdsa(tx, index, fact.utxo.value.script, fact.utxo.value.value, key.value, found.signature.bytes)
        then Err(BadSignature)
        else Ok(true)
    else if held.partials != [] then Err(BadSignature)
    else if held.tap.None? then Ok(false)
    else
      var found := held.tap.value;
      if found.sighash != SIGHASH_DEFAULT && found.sighash != SIGHASH_ALL then Err(BadSignature)
      else if Prevouts(inputs).None? then Err(BadSignature)
      else if !e.schnorr(tx, index, Prevouts(inputs).value, found.sighash, key.value, found.bytes)
      then Err(BadSignature)
      else Ok(true)
  }
}
