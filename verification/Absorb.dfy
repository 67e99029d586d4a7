/** Taking in what a signer or the other wallet sent, keeping only what passes. */
module Absorb {
  import opened Wrappers
  import opened Chain
  import opened PsbtV2
  import opened Shares
  import Dleq

  /** Where a PSBT being taken in came from. It decides what it may add. */
  datatype Source = Signer | Peer

  // -------------------------------------------------------------------------
  // What absorbing means

  /** Nothing that decides the transaction id or what is paid may differ; only
    * the script of a silent payment output may appear. */
  predicate SameSkeleton(mine: Psbt, theirs: Psbt)
  {
    && mine.global.version == theirs.global.version
    && FallbackLockTime(mine.global) == FallbackLockTime(theirs.global)
    && |mine.inputs| == |theirs.inputs| && |mine.outputs| == |theirs.outputs|
    && (forall i :: 0 <= i < |mine.inputs| ==> SameSpend(mine.inputs[i].fact, theirs.inputs[i].fact))
    && (forall o :: 0 <= o < |mine.outputs| ==> SamePayment(mine.outputs[o], theirs.outputs[o]))
  }

  predicate SameSpend(before: Spend, after: Spend)
  {
    && before.coin == after.coin
    && SequenceOf(before) == SequenceOf(after)
    && before.minTime == after.minTime && before.minHeight == after.minHeight
  }

  predicate SamePayment(before: Output, after: Output)
  {
    && before.amount == after.amount && before.info == after.info && before.spLabel == after.spLabel
    && if before.info.Some?
       then before.script == NO_SCRIPT || after.script == NO_SCRIPT || before.script == after.script
       else before.script == after.script
  }

  /** An arriving input passes when its shares do, against this side's own key. */
  predicate ArrivedOk(e: Env, state: Psbt, incoming: Psbt, i: nat)
    requires i < |state.inputs| && i < |incoming.inputs|
  {
    && SighashIsAll(incoming.inputs[i].fact)
    && InputSharesOk(e, state.outputs, state.inputs[i].fact, incoming.inputs[i].held)
  }

  /** A share already held stays, with the proof it came with. */
  function MergeHeld(mine: Held, arrived: Held): Held
  {
    mine.(shares := arrived.shares + mine.shares,
          proofs := mine.proofs + map scan | scan in arrived.shares && scan !in mine.shares && scan in arrived.proofs
                                  :: arrived.proofs[scan])
  }

  function Merge(state: Psbt, incoming: Psbt): (merged: Psbt)
    requires |state.inputs| == |incoming.inputs|
    ensures |merged.inputs| == |state.inputs|
  {
    state.(inputs := seq(|state.inputs|, i requires 0 <= i < |state.inputs| =>
      Input(state.inputs[i].fact, MergeHeld(state.inputs[i].held, incoming.inputs[i].held))))
  }

  /** The script an output has, and the one that was sent, must be the derived
    * one; without every share there can be none. */
  predicate ScriptOk(e: Env, merged: Psbt, incoming: Psbt, o: nat)
    requires o < |merged.outputs| == |incoming.outputs| && merged.outputs[o].info.Some?
  {
    var sent := incoming.outputs[o].script;
    if Completed(merged, o) then
      var script := ScriptAt(e, merged, o);
      && (merged.outputs[o].script == NO_SCRIPT || script == Some(merged.outputs[o].script))
      && (sent == NO_SCRIPT || script == Some(sent))
    else sent == NO_SCRIPT
  }

  predicate ScriptsOk(e: Env, merged: Psbt, incoming: Psbt)
    requires |merged.outputs| == |incoming.outputs|
  { forall o :: 0 <= o < |merged.outputs| && merged.outputs[o].info.Some? ==> ScriptOk(e, merged, incoming, o) }

  function FilledOutput(e: Env, merged: Psbt, o: nat): Output
    requires o < |merged.outputs| && Derivable(e, merged)
  {
    if Completed(merged, o) && merged.outputs[o].script == NO_SCRIPT
    then merged.outputs[o].(script := ScriptAt(e, merged, o).value)
    else merged.outputs[o]
  }

  function Fill(e: Env, merged: Psbt): (filled: Psbt)
    requires Derivable(e, merged)
    ensures |filled.outputs| == |merged.outputs| && filled.inputs == merged.inputs
  {
    merged.(outputs := seq(|merged.outputs|, o requires 0 <= o < |merged.outputs| => FilledOutput(e, merged, o)))
  }

  function WithSignature(mine: Held, arrived: Held): Held
  { mine.(partials := arrived.partials, tap := arrived.tap) }

  /** A copy holding only the signature that arrived. */
  function Probe(state: Psbt, incoming: Psbt, i: nat): seq<Input>
    requires i < |state.inputs| == |incoming.inputs|
  {
    state.inputs[i := Input(state.inputs[i].fact, WithSignature(state.inputs[i].held, incoming.inputs[i].held))]
  }

  predicate SignatureOk(e: Env, state: Psbt, incoming: Psbt, tx: Transaction, source: Source, mine: set<nat>, i: nat)
    requires i < |state.inputs| == |incoming.inputs|
  {
    CarriesSignature(incoming.inputs[i].held) ==>
      && (source == Signer ==> i in mine)
      && SignatureVerifies(e, Probe(state, incoming, i), tx, i).Ok?
  }

  function SignedHeld(mine: Held, arrived: Held): Held
  { if CarriesSignature(arrived) && !CarriesSignature(mine) then WithSignature(mine, arrived) else mine }

  function Sign(state: Psbt, incoming: Psbt): (signed: Psbt)
    requires |state.inputs| == |incoming.inputs|
    ensures |signed.inputs| == |state.inputs| && signed.outputs == state.outputs
  {
    state.(inputs := seq(|state.inputs|, i requires 0 <= i < |state.inputs| =>
      Input(state.inputs[i].fact, SignedHeld(state.inputs[i].held, incoming.inputs[i].held))))
  }

  /** The new state, or which group of checks refused. */
  function Absorbed(e: Env, state: Psbt, incoming: Psbt, source: Source, mine: set<nat>): Result<Psbt, Refusal>
  {
    if HasGlobalShare(incoming.global) then Err(GlobalShare)
    else if !SameSkeleton(state, incoming) then Err(Changed)
    else if incoming.global.flags != 0 then Err(StillOpen)
    else if !RecipientsOk(e.curve, state.outputs) then Err(BadRecipient)
    else if exists i :: 0 <= i < |incoming.inputs| && !ArrivedOk(e, state, incoming, i) then Err(BadShare)
    else
      var merged := Merge(state, incoming);
      if !AllSharesOk(e, merged) then Err(BadShare)
      else if !Derivable(e, merged) then Err(Underivable)
      else if !ScriptsOk(e, merged, incoming) then Err(WrongScript)
      else AbsorbedSignatures(e, Fill(e, merged), incoming, source, mine)
  }

  function AbsorbedSignatures(e: Env, filled: Psbt, incoming: Psbt, source: Source,
                              mine: set<nat>): Result<Psbt, Refusal>
    requires |filled.inputs| == |incoming.inputs|
  {
    if SignedInputs(incoming) == {} then Ok(filled)
    else
      var tx := UnsignedTransaction(filled);
      if tx.Err? then Err(Unsignable)
      else if exists i :: 0 <= i < |filled.inputs| && !SignatureOk(e, filled, incoming, tx.value, source, mine, i)
      then Err(BadSignature)
      else Ok(Sign(filled, incoming))
  }

  // -------------------------------------------------------------------------
  // The code

  method TakeShares(e: Env, scanKeys: seq<nat>, ghost outputs: seq<Output>, fact: Spend, mine: Held, arrived: Input)
    returns (r: Result<Held, Refusal>)
    requires forall scan :: scan in scanKeys <==> PaysScan(outputs, scan)
    ensures r.Ok? <==> SighashIsAll(arrived.fact) && InputSharesOk(e, outputs, fact, arrived.held)
    ensures r.Ok? ==> r.value == MergeHeld(mine, arrived.held)
  {
    hide Dleq.Verify, PaysScan, SighashIsAll, ShareOk, InputKey, Taken, MergeHeld;
    if !SighashIsAll(arrived.fact) { return Err(BadShare); }
    var key := InputKey(e, fact);
    if key.None? { return Err(BadShare); }
    var next := mine;
    var todo := arrived.held.shares.Keys;
    NoneTaken(mine, arrived.held);
    while todo != {}
      invariant todo <= arrived.held.shares.Keys
      invariant forall scan :: scan in arrived.held.shares && scan !in todo ==>
        ShareOk(e, outputs, key.value, arrived.held, scan)
      invariant Taken(mine, arrived.held, todo, next)
    {
      var scan :| scan in todo;
      var ok := CheckShare(e, scanKeys, outputs, key.value, arrived.held, scan);
      if !ok { return Err(BadShare); }
      assert scan in arrived.held.proofs by { ShareHasProof(e, outputs, key.value, arrived.held, scan); }
      next := TakeShare(mine, arrived.held, todo, next, scan);
      todo := todo - {scan};
    }
    if exists scan :: scan in arrived.held.proofs && scan !in arrived.held.shares { return Err(BadShare); }
    AllTaken(mine, arrived.held, next);
    return Ok(next);
  }

  method CheckShare(e: Env, scanKeys: seq<nat>, ghost outputs: seq<Output>, key: nat, arrived: Held, scan: nat)
    returns (ok: bool)
    requires forall s :: s in scanKeys <==> PaysScan(outputs, s)
    requires scan in arrived.shares
    ensures ok <==> ShareOk(e, outputs, key, arrived, scan)
  {
    return scan in scanKeys && scan in arrived.proofs
      && Dleq.Verify(e.curve, key, scan, arrived.shares[scan], arrived.proofs[scan]);
  }

  lemma ShareHasProof(e: Env, outputs: seq<Output>, key: nat, held: Held, scan: nat)
    requires scan in held.shares && ShareOk(e, outputs, key, held, scan)
    ensures scan in held.proofs
  { }

  /** One key and one scan key give exactly one share, so a share already held stays. */
  method TakeShare(ghost mine: Held, arrived: Held, ghost todo: set<nat>, held: Held, scan: nat) returns (next: Held)
    requires scan in todo && todo <= arrived.shares.Keys && scan in arrived.shares && scan in arrived.proofs
    requires Taken(mine, arrived, todo, held)
    ensures Taken(mine, arrived, todo - {scan}, next)
  {
    next := held;
    if scan !in held.shares {
      next := held.(shares := held.shares[scan := arrived.shares[scan]],
                    proofs := held.proofs[scan := arrived.proofs[scan]]);
    }
  }

  /** `next` is `mine` with every arriving share outside `todo` taken in. */
  ghost predicate Taken(mine: Held, arrived: Held, todo: set<nat>, next: Held)
  {
    && next == mine.(shares := next.shares, proofs := next.proofs)
    && (forall s :: s in next.shares <==> s in mine.shares || (s in arrived.shares && s !in todo))
    && (forall s :: s in next.shares ==>
          next.shares[s] == if s in mine.shares then mine.shares[s] else arrived.shares[s])
    && (forall s :: s in next.proofs <==> s in mine.proofs || NewlyTaken(mine, arrived, todo, s))
    && (forall s :: s in next.proofs ==>
          if NewlyTaken(mine, arrived, todo, s) then s in arrived.proofs && next.proofs[s] == arrived.proofs[s]
          else s in mine.proofs && next.proofs[s] == mine.proofs[s])
  }

  ghost predicate NewlyTaken(mine: Held, arrived: Held, todo: set<nat>, s: nat)
  { s in arrived.shares && s !in todo && s !in mine.shares }

  lemma NoneTaken(mine: Held, arrived: Held)
    ensures Taken(mine, arrived, arrived.shares.Keys, mine)
  { }

  lemma AllTaken(mine: Held, arrived: Held, next: Held)
    requires Taken(mine, arrived, {}, next)
    ensures next == MergeHeld(mine, arrived)
  {
    assert next.shares == MergeHeld(mine, arrived).shares;
    forall s | s in next.proofs
      ensures s in MergeHeld(mine, arrived).proofs && MergeHeld(mine, arrived).proofs[s] == next.proofs[s]
    { }
    assert next.proofs == MergeHeld(mine, arrived).proofs;
  }

  method AbsorbState(e: Env, state: Psbt, incoming: Psbt, source: Source, mine: set<nat>)
    returns (r: Result<Psbt, Refusal>)
    ensures r == Absorbed(e, state, incoming, source, mine)
  {
    if HasGlobalShare(incoming.global) { return Err(GlobalShare); }
    if !SameSkeleton(state, incoming) { return Err(Changed); }
    if incoming.global.flags != 0 { return Err(StillOpen); }
    var merged := AbsorbShares(e, state, incoming);
    if merged.Err? { return merged; }
    var shares := CheckShares(e, merged.value);
    if shares.Err? { return Err(BadShare); }
    var derived := DeriveScripts(e, merged.value, shares.value);
    if derived.Err? { return Err(derived.why); }
    var filled := AbsorbScripts(e, merged.value, incoming, derived.value);
    if filled.Err? { return filled; }
    r := AbsorbSignatures(e, filled.value, incoming, source, mine);
  }

  method AbsorbShares(e: Env, state: Psbt, incoming: Psbt) returns (r: Result<Psbt, Refusal>)
    requires |state.inputs| == |incoming.inputs|
    ensures r == if !RecipientsOk(e.curve, state.outputs) then Err(BadRecipient)
                 else if exists i :: 0 <= i < |incoming.inputs| && !ArrivedOk(e, state, incoming, i) then Err(BadShare)
                 else Ok(Merge(state, incoming))
  {
    var recipients := Recipients(e.curve, state.outputs);
    if recipients.Err? { return Err(recipients.why); }
    var scanKeys := ScanKeys(state.outputs, recipients.value);
    var next := state;
    for index := 0 to |incoming.inputs|
      invariant |next.inputs| == |state.inputs| && next == state.(inputs := next.inputs)
      invariant forall i :: 0 <= i < index ==> ArrivedOk(e, state, incoming, i)
      invariant forall i :: 0 <= i < index ==>
        next.inputs[i] == Input(state.inputs[i].fact, MergeHeld(state.inputs[i].held, incoming.inputs[i].held))
      invariant forall i :: index <= i < |state.inputs| ==> next.inputs[i] == state.inputs[i]
    {
      var held := TakeShares(e, scanKeys, state.outputs, state.inputs[index].fact,
                                 next.inputs[index].held, incoming.inputs[index]);
      if held.Err? {
        assert !ArrivedOk(e, state, incoming, index);
        return Err(BadShare);
      }
      next := next.(inputs := next.inputs[index := Input(state.inputs[index].fact, held.value)]);
    }
    assert next.inputs == Merge(state, incoming).inputs;
    return Ok(next);
  }

  method AbsorbScripts(e: Env, merged: Psbt, incoming: Psbt, derived: map<nat, Script>)
    returns (r: Result<Psbt, Refusal>)
    requires |merged.outputs| == |incoming.outputs| && Derivable(e, merged) && derived == Derived(e, merged)
    ensures r == if ScriptsOk(e, merged, incoming) then Ok(Fill(e, merged)) else Err(WrongScript)
  {
    hide ScriptAt;
    var outputs := merged.outputs;
    for o := 0 to |merged.outputs|
      invariant |outputs| == |merged.outputs|
      invariant forall j :: 0 <= j < o && merged.outputs[j].info.Some? ==> ScriptOk(e, merged, incoming, j)
      invariant forall j :: 0 <= j < o ==> outputs[j] == FilledOutput(e, merged, j)
      invariant forall j :: o <= j < |merged.outputs| ==> outputs[j] == merged.outputs[j]
    {
      if merged.outputs[o].info.None? { continue; }
      var derivedHere := if o in derived then Some(derived[o]) else None;
      assert derivedHere.Some? <==> Completed(merged, o);
      assert derivedHere.Some? ==> derivedHere == ScriptAt(e, merged, o);
      var ok := AbsorbScript(merged.outputs[o], incoming.outputs[o].script, derivedHere);
      if ok.Err? {
        assert !ScriptOk(e, merged, incoming, o);
        return Err(WrongScript);
      }
      outputs := outputs[o := ok.value];
    }
    assert outputs == Fill(e, merged).outputs;
    return Ok(merged.(outputs := outputs));
  }

  method AbsorbScript(output: Output, sent: Script, derived: Option<Script>) returns (r: Result<Output, Refusal>)
    ensures r.Ok? <==>
      if derived.Some? then (output.script == NO_SCRIPT || derived == Some(output.script))
        && (sent == NO_SCRIPT || derived == Some(sent))
      else sent == NO_SCRIPT
    ensures r.Ok? ==>
      r.value == if derived.Some? && output.script == NO_SCRIPT then output.(script := derived.value) else output
  {
    var next := output;
    if derived.Some? {
      if next.script == NO_SCRIPT {
        next := next.(script := derived.value);
      } else if next.script != derived.value {
        return Err(WrongScript);
      }
      if sent != NO_SCRIPT && sent != derived.value { return Err(WrongScript); }
    } else if sent != NO_SCRIPT {
      return Err(WrongScript);
    }
    return Ok(next);
  }

  method AbsorbSignatures(e: Env, filled: Psbt, incoming: Psbt, source: Source, mine: set<nat>)
    returns (r: Result<Psbt, Refusal>)
    requires |filled.inputs| == |incoming.inputs|
    ensures r == AbsorbedSignatures(e, filled, incoming, source, mine)
  {
    hide SignatureVerifies, UnsignedTransaction;
    if SignedInputs(incoming) == {} { return Ok(filled); }
    var tx := UnsignedTransaction(filled);
    if tx.Err? { return Err(Unsignable); }
    var next := filled;
    for index := 0 to |filled.inputs|
      invariant |next.inputs| == |filled.inputs| && next == filled.(inputs := next.inputs)
      invariant forall i :: 0 <= i < index ==> SignatureOk(e, filled, incoming, tx.value, source, mine, i)
      invariant forall i :: 0 <= i < index ==>
        next.inputs[i] == Input(filled.inputs[i].fact, SignedHeld(filled.inputs[i].held, incoming.inputs[i].held))
      invariant forall i :: index <= i < |filled.inputs| ==> next.inputs[i] == filled.inputs[i]
    {
      var arrived := incoming.inputs[index].held;
      if !CarriesSignature(arrived) { continue; }
      if source == Signer && index !in mine {
        assert !SignatureOk(e, filled, incoming, tx.value, source, mine, index);
        return Err(BadSignature);
      }
      var probe := next.inputs[index :=
        Input(next.inputs[index].fact, WithSignature(next.inputs[index].held, arrived))];
      SameSignatureCheck(e, probe, Probe(filled, incoming, index), tx.value, index);
      var verified := SignatureVerifies(e, probe, tx.value, index);
      if verified.Err? {
        assert !SignatureOk(e, filled, incoming, tx.value, source, mine, index);
        return Err(BadSignature);
      }
      if !CarriesSignature(next.inputs[index].held) {
        next := next.(inputs := probe);
      }
    }
    assert next.inputs == Sign(filled, incoming).inputs;
    return Ok(next);
  }

  /** A signature check reads every coin's facts but only its own signature. */
  lemma SameSignatureCheck(e: Env, left: seq<Input>, right: seq<Input>, tx: Transaction, i: nat)
    requires i < |left| == |right|
    requires forall j :: 0 <= j < |left| ==> left[j].fact == right[j].fact
    requires left[i].held.partials == right[i].held.partials && left[i].held.tap == right[i].held.tap
    ensures SignatureVerifies(e, left, tx, i) == SignatureVerifies(e, right, tx, i)
  {
    if Prevouts(left).Some? && Prevouts(right).Some? {
      assert Prevouts(left).value == Prevouts(right).value;
    } else {
      if Prevouts(left).None? {
        var j :| 0 <= j < |left| && left[j].fact.utxo.None?;
        assert right[j].fact.utxo.None?;
      }
      if Prevouts(right).None? {
        var j :| 0 <= j < |right| && right[j].fact.utxo.None?;
        assert left[j].fact.utxo.None?;
      }
    }
  }
}
