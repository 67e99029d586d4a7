/** What an honest signer answers, and that its answer is always taken. */
module HonestSigner {
  import opened Wrappers
  import opened Chain
  import opened PsbtV2
  import opened Shares
  import opened Absorb
  import opened Agreement
  import opened Soundness
  import opened Laws
  import opened SharedSession

  // -------------------------------------------------------------------------
  // What it answers

  /** A share, with a proof that holds, for every scan key that is paid. */
  ghost predicate GivesShares(e: Env, outputs: seq<Output>, fact: Spend, held: Held)
  {
    && InputSharesOk(e, outputs, fact, held)
    && forall o :: 0 <= o < |outputs| && outputs[o].info.Some? ==> outputs[o].info.value.scan in held.shares
  }

  /** The other wallet's input comes back as it was shown, or with nothing. */
  ghost predicate LeavesAlone(shown: Held, held: Held)
  {
    && !CarriesSignature(held)
    && ((held.shares == shown.shares && held.proofs == shown.proofs) || (held.shares == map[] && held.proofs == map[]))
  }

  /** The transaction this answer completes. */
  ghost predicate SignsAll(e: Env, p: Psbt, mine: set<nat>, answer: Psbt)
    requires |p.inputs| == |answer.inputs| && |p.outputs| == |answer.outputs|
  {
    var merged := Merge(p, answer);
    && Derivable(e, merged)
    && UnsignedTransaction(Fill(e, merged)).Ok?
    && (forall o :: 0 <= o < |p.outputs| && p.outputs[o].info.Some? ==>
          Some(answer.outputs[o].script) == ScriptAt(e, merged, o))
    && (forall i :: 0 <= i < |p.inputs| && i in mine ==> Signs(e, Fill(e, merged), answer, i))
  }

  ghost predicate Signs(e: Env, filled: Psbt, answer: Psbt, i: nat)
    requires i < |filled.inputs| == |answer.inputs| && UnsignedTransaction(filled).Ok?
  {
    && CarriesSignature(answer.inputs[i].held)
    && SignatureVerifies(e, Probe(filled, answer, i), UnsignedTransaction(filled).value, i).Ok?
  }

  ghost predicate SignsNothing(p: Psbt, answer: Psbt)
    requires |p.inputs| == |answer.inputs| && |p.outputs| == |answer.outputs|
  {
    && (forall i :: 0 <= i < |p.inputs| ==> !CarriesSignature(answer.inputs[i].held))
    && (forall o :: 0 <= o < |p.outputs| && p.outputs[o].info.Some? ==> answer.outputs[o].script == NO_SCRIPT)
  }

  /** The signer gives all its shares on every visit, and once every other share is
    * there it derives the scripts and signs all its inputs. */
  ghost predicate HonestAnswer(e: Env, p: Psbt, mine: set<nat>, answer: Psbt)
  {
    && !HasGlobalShare(answer.global) && answer.global.flags == 0 && SameSkeleton(p, answer)
    && (forall i :: 0 <= i < |answer.inputs| ==> SighashIsAll(answer.inputs[i].fact))
    && (forall i :: 0 <= i < |p.inputs| && i in mine ==>
          GivesShares(e, p.outputs, p.inputs[i].fact, answer.inputs[i].held))
    && (forall i :: 0 <= i < |p.inputs| && i !in mine ==> LeavesAlone(p.inputs[i].held, answer.inputs[i].held))
    && if Waiting(p, mine) then SignsNothing(p, answer) else SignsAll(e, p, mine, answer)
  }

  // -------------------------------------------------------------------------
  // It is taken

  /** Two inputs' shares that pass pass together. */
  lemma MergedSharesOk(e: Env, outputs: seq<Output>, fact: Spend, mine: Held, arrived: Held)
    requires InputSharesOk(e, outputs, fact, mine) && InputSharesOk(e, outputs, fact, arrived)
    ensures InputSharesOk(e, outputs, fact, MergeHeld(mine, arrived))
  {
    var held, key := MergeHeld(mine, arrived), InputKey(e, fact).value;
    forall scan | scan in held.shares ensures ShareOk(e, outputs, key, held, scan) {
      if scan in mine.shares {
        assert ShareOk(e, outputs, key, mine, scan);
      } else {
        assert ShareOk(e, outputs, key, arrived, scan);
      }
    }
  }

  lemma AnswerArrives(e: Env, p: Psbt, mine: set<nat>, answer: Psbt, i: nat)
    requires Sound(e, p) && HonestAnswer(e, p, mine, answer) && i < |p.inputs| == |answer.inputs|
    ensures ArrivedOk(e, p, answer, i)
    ensures InputSharesOk(e, p.outputs, p.inputs[i].fact, Merge(p, answer).inputs[i].held)
  {
    hide SignsAll, SignsNothing, SameSkeleton, ScriptAt, UnsignedTransaction;
    assert InputSharesOk(e, p.outputs, p.inputs[i].fact, p.inputs[i].held);
    var held := answer.inputs[i].held;
    assert InputSharesOk(e, p.outputs, p.inputs[i].fact, held) by {
      if i !in mine {
        assert LeavesAlone(p.inputs[i].held, held);
        if held.shares == p.inputs[i].held.shares {
          forall scan | scan in held.shares
            ensures ShareOk(e, p.outputs, InputKey(e, p.inputs[i].fact).value, held, scan)
          {
            assert ShareOk(e, p.outputs, InputKey(e, p.inputs[i].fact).value, p.inputs[i].held, scan);
          }
        }
      }
    }
    MergedSharesOk(e, p.outputs, p.inputs[i].fact, p.inputs[i].held, held);
  }

  /** Every silent payment goes to the same scan key. */
  ghost predicate OneScan(outputs: seq<Output>)
  {
    && (exists o :: 0 <= o < |outputs| && outputs[o].info.Some?)
    && forall i, j :: 0 <= i < |outputs| && 0 <= j < |outputs| && outputs[i].info.Some? && outputs[j].info.Some? ==>
      outputs[i].info.value.scan == outputs[j].info.value.scan
  }

  /** With the answer merged in, the shares are complete exactly when the signer
    * was not waiting for any. */
  lemma CompleteUnlessWaiting(e: Env, p: Psbt, mine: set<nat>, answer: Psbt, o: nat)
    requires HonestAnswer(e, p, mine, answer) && OneScan(p.outputs) && |p.inputs| == |answer.inputs|
    requires o < |p.outputs| && p.outputs[o].info.Some?
    ensures Completed(Merge(p, answer), o) <==> !Waiting(p, mine)
  {
    hide SignsAll, SignsNothing, SameSkeleton, ScriptAt, InputSharesOk;
    var merged, scan := Merge(p, answer), p.outputs[o].info.value.scan;
    forall i | 0 <= i < |p.inputs|
      ensures scan in merged.inputs[i].held.shares <==> i in mine || scan in p.inputs[i].held.shares
    {
      assert merged.inputs[i].held == MergeHeld(p.inputs[i].held, answer.inputs[i].held);
      if i in mine { assert GivesShares(e, p.outputs, p.inputs[i].fact, answer.inputs[i].held); }
      else { assert LeavesAlone(p.inputs[i].held, answer.inputs[i].held); }
    }
    if Waiting(p, mine) {
      var i, j :| 0 <= i < |p.inputs| && 0 <= j < |p.outputs| && i !in mine
        && p.outputs[j].info.Some? && p.outputs[j].info.value.scan !in p.inputs[i].held.shares;
      assert scan !in merged.inputs[i].held.shares;
    }
  }

  lemma AnswerScripts(e: Env, p: Psbt, mine: set<nat>, answer: Psbt)
    requires Sound(e, p) && HonestAnswer(e, p, mine, answer) && OneScan(p.outputs)
    requires |p.inputs| == |answer.inputs| && |p.outputs| == |answer.outputs|
    ensures Derivable(e, Merge(p, answer)) && ScriptsOk(e, Merge(p, answer), answer)
  {
    hide ScriptAt, UnsignedTransaction, InputSharesOk, GivesShares, LeavesAlone, SameSkeleton, CheckInput,
         SignaturesSound;
    var merged := Merge(p, answer);
    MergeIsAbove(e, p, answer);
    WithinGrows(p, merged);
    forall o: nat | o < |p.outputs| && p.outputs[o].info.Some?
      ensures Completed(merged, o) ==> ScriptAt(e, merged, o).Some?
      ensures ScriptOk(e, merged, answer, o)
    {
      CompleteUnlessWaiting(e, p, mine, answer, o);
      if Completed(p, o) { LaterSharesKeepTheScript(e, p, merged, o); }
    }
  }

  lemma AnswerSignatures(e: Env, p: Psbt, mine: set<nat>, answer: Psbt)
    requires HonestAnswer(e, p, mine, answer) && |p.inputs| == |answer.inputs| && |p.outputs| == |answer.outputs|
    requires Derivable(e, Merge(p, answer))
    ensures AbsorbedSignatures(e, Fill(e, Merge(p, answer)), answer, Signer, mine).Ok?
  { }

  /** An honest answer passes every check. Afterwards every share of this signer
    * is there, nobody else's has moved, and its inputs are signed exactly if it was
    * not waiting for a share. */
  lemma HonestAnswerIsTaken(e: Env, p: Psbt, mine: set<nat>, answer: Psbt)
    requires Sound(e, p) && HonestAnswer(e, p, mine, answer) && OneScan(p.outputs)
    ensures Absorbed(e, p, answer, Signer, mine).Ok?
    ensures var next := Absorbed(e, p, answer, Signer, mine).value;
      && |next.inputs| == |p.inputs|
      && (forall i, o :: 0 <= i < |p.inputs| && 0 <= o < |p.outputs| && p.outputs[o].info.Some? ==>
            (p.outputs[o].info.value.scan in next.inputs[i].held.shares <==>
              i in mine || p.outputs[o].info.value.scan in p.inputs[i].held.shares))
      && (forall i :: 0 <= i < |p.inputs| ==>
            (CarriesSignature(next.inputs[i].held) <==>
              CarriesSignature(p.inputs[i].held) || (i in mine && !Waiting(p, mine))))
  {
    AnswerPasses(e, p, mine, answer);
    AnswerResult(e, p, mine, answer);
  }

  lemma AnswerPasses(e: Env, p: Psbt, mine: set<nat>, answer: Psbt)
    requires Sound(e, p) && HonestAnswer(e, p, mine, answer) && OneScan(p.outputs)
    ensures Absorbed(e, p, answer, Signer, mine).Ok? && |p.inputs| == |answer.inputs|
  {
    hide ScriptAt, InputSharesOk, GivesShares, LeavesAlone, SignatureVerifies, UnsignedTransaction, SignsAll,
         SignsNothing,
         Derivable, ScriptsOk, AbsorbedSignatures, SignaturesSound, ScriptsSound, CheckInput, ArrivedOk;
    forall i | 0 <= i < |p.inputs|
      ensures ArrivedOk(e, p, answer, i)
      ensures InputSharesOk(e, p.outputs, p.inputs[i].fact, Merge(p, answer).inputs[i].held)
    {
      AnswerArrives(e, p, mine, answer, i);
    }
    AnswerScripts(e, p, mine, answer);
    AnswerSignatures(e, p, mine, answer);
  }

  lemma AnswerResult(e: Env, p: Psbt, mine: set<nat>, answer: Psbt)
    requires HonestAnswer(e, p, mine, answer) && Absorbed(e, p, answer, Signer, mine).Ok?
    requires |p.inputs| == |answer.inputs|
    ensures var next := Absorbed(e, p, answer, Signer, mine).value;
      && |next.inputs| == |p.inputs|
      && (forall i, o :: 0 <= i < |p.inputs| && 0 <= o < |p.outputs| && p.outputs[o].info.Some? ==>
            (p.outputs[o].info.value.scan in next.inputs[i].held.shares <==>
              i in mine || p.outputs[o].info.value.scan in p.inputs[i].held.shares))
      && (forall i :: 0 <= i < |p.inputs| ==>
            (CarriesSignature(next.inputs[i].held) <==>
              CarriesSignature(p.inputs[i].held) || (i in mine && !Waiting(p, mine))))
  {
    hide Absorbed, ScriptAt, InputSharesOk, SignatureVerifies, UnsignedTransaction, SameSkeleton, Derivable;
    var next := Absorbed(e, p, answer, Signer, mine).value;
    AbsorbedParts(e, p, answer, Signer, mine);
    assert |next.inputs| == |p.inputs|;
    forall i | 0 <= i < |p.inputs|
      ensures forall o :: 0 <= o < |p.outputs| && p.outputs[o].info.Some? ==>
        (p.outputs[o].info.value.scan in next.inputs[i].held.shares <==>
          i in mine || p.outputs[o].info.value.scan in p.inputs[i].held.shares)
      ensures CarriesSignature(next.inputs[i].held)
        <==> CarriesSignature(p.inputs[i].held) || (i in mine && !Waiting(p, mine))
    {
      ResultHoldsTheArrival(e, p, answer, Signer, mine, i);
      if i in mine {
        assert GivesShares(e, p.outputs, p.inputs[i].fact, answer.inputs[i].held);
        if !Waiting(p, mine) { assert Signs(e, Fill(e, Merge(p, answer)), answer, i); }
      } else {
        assert LeavesAlone(p.inputs[i].held, answer.inputs[i].held);
      }
    }
  }

  // -------------------------------------------------------------------------
  // It needs no more than it is shown

  /** The request is the state without the other signer's signatures: same
    * transaction, same shares, and this signer's own signatures. */
  lemma RequestShows(p: Psbt, mine: set<nat>)
    requires p.global.flags == 0
    ensures var shown := SignerRequest(p, mine);
      && Skeleton(shown) == Skeleton(p) && |shown.inputs| == |p.inputs| && shown.outputs == p.outputs
      && (forall i :: 0 <= i < |p.inputs| ==> SameShares(p.inputs[i], shown.inputs[i]))
      && (forall i :: 0 <= i < |p.inputs| ==>
            (CarriesSignature(shown.inputs[i].held) <==> i in mine && CarriesSignature(p.inputs[i].held)))
  { }

  lemma MergedShows(e: Env, p: Psbt, q: Psbt, answer: Psbt)
    requires |p.inputs| == |q.inputs| == |answer.inputs| && p.outputs == q.outputs && p.global == q.global
    requires forall i :: 0 <= i < |p.inputs| ==> SameShares(p.inputs[i], q.inputs[i])
    ensures Derivable(e, Merge(p, answer)) == Derivable(e, Merge(q, answer))
    ensures forall o: nat :: Completed(Merge(p, answer), o) == Completed(Merge(q, answer), o)
    ensures forall o: nat :: Completed(Merge(p, answer), o) ==>
      ScriptAt(e, Merge(p, answer), o) == ScriptAt(e, Merge(q, answer), o)
  {
    var left, right := Merge(p, answer), Merge(q, answer);
    forall i | 0 <= i < |left.inputs| ensures SameShares(left.inputs[i], right.inputs[i]) {
      assert SameShares(p.inputs[i], q.inputs[i]);
      assert left.inputs[i].held == MergeHeld(p.inputs[i].held, answer.inputs[i].held);
      assert right.inputs[i].held == MergeHeld(q.inputs[i].held, answer.inputs[i].held);
    }
    SameDerivation(e, left, right);
  }

  lemma FilledShows(e: Env, p: Psbt, q: Psbt, answer: Psbt)
    requires |p.inputs| == |q.inputs| == |answer.inputs| && p.outputs == q.outputs && p.global == q.global
    requires forall i :: 0 <= i < |p.inputs| ==> SameShares(p.inputs[i], q.inputs[i])
    requires Derivable(e, Merge(p, answer)) && Derivable(e, Merge(q, answer))
    ensures var left, right := Fill(e, Merge(p, answer)), Fill(e, Merge(q, answer));
      && left.outputs == right.outputs && |left.inputs| == |right.inputs| == |p.inputs|
      && UnsignedTransaction(left) == UnsignedTransaction(right)
      && forall i :: 0 <= i < |p.inputs| ==> left.inputs[i].fact == right.inputs[i].fact
  {
    hide ScriptAt, Completed, UnsignedTransaction;
    MergedShows(e, p, q, answer);
    var left, right := Fill(e, Merge(p, answer)), Fill(e, Merge(q, answer));
    forall o | 0 <= o < |left.outputs| ensures left.outputs[o] == right.outputs[o] {
      assert left.outputs[o] == FilledOutput(e, Merge(p, answer), o);
      assert right.outputs[o] == FilledOutput(e, Merge(q, answer), o);
    }
    assert left.outputs == right.outputs;
    forall i | 0 <= i < |p.inputs| ensures left.inputs[i].fact == right.inputs[i].fact {
      assert SameShares(p.inputs[i], q.inputs[i]);
    }
    SameTransactionInputs(left, right);
  }

  lemma SignsTheSame(e: Env, p: Psbt, q: Psbt, mine: set<nat>, answer: Psbt, o: nat)
    requires |p.inputs| == |q.inputs| == |answer.inputs| && p.outputs == q.outputs && p.global == q.global
    requires |p.outputs| == |answer.outputs| && o < |p.outputs| && p.outputs[o].info.Some?
    requires forall i :: 0 <= i < |p.inputs| ==> SameShares(p.inputs[i], q.inputs[i])
    requires Completed(Merge(p, answer), o) && OneScan(p.outputs)
    ensures SignsAll(e, p, mine, answer) ==> SignsAll(e, q, mine, answer)
  {
    hide ScriptAt, UnsignedTransaction, SignatureVerifies;
    MergedShows(e, p, q, answer);
    if SignsAll(e, p, mine, answer) {
      FilledShows(e, p, q, answer);
      forall j | 0 <= j < |q.outputs| && q.outputs[j].info.Some?
        ensures Some(answer.outputs[j].script) == ScriptAt(e, Merge(q, answer), j)
      {
        assert Completed(Merge(p, answer), j);
      }
      var left, right := Fill(e, Merge(p, answer)), Fill(e, Merge(q, answer));
      forall i | 0 <= i < |q.inputs| && i in mine ensures Signs(e, right, answer, i) {
        assert Signs(e, left, answer, i);
        SameSignatureCheck(e, Probe(left, answer, i), Probe(right, answer, i), UnsignedTransaction(left).value, i);
      }
    }
  }

  ghost predicate ShowsTheSame(p: Psbt, q: Psbt)
  {
    && |p.inputs| == |q.inputs| && p.outputs == q.outputs && p.global == q.global
    && forall i :: 0 <= i < |p.inputs| ==> SameShares(p.inputs[i], q.inputs[i])
  }

  lemma HonestForBoth(e: Env, p: Psbt, q: Psbt, mine: set<nat>, answer: Psbt)
    requires ShowsTheSame(p, q) && OneScan(p.outputs) && HonestAnswer(e, p, mine, answer)
    ensures HonestAnswer(e, q, mine, answer)
  {
    hide SignsAll, SignsNothing, GivesShares, LeavesAlone, Waiting, SameSpend, SamePayment, SighashIsAll;
    assert |p.inputs| == |answer.inputs| && |p.outputs| == |answer.outputs|;
    WaitsTheSame(p, q, mine);
    forall i | 0 <= i < |p.inputs|
      ensures p.inputs[i].fact == q.inputs[i].fact
      ensures LeavesAlone(p.inputs[i].held, answer.inputs[i].held) ==>
        LeavesAlone(q.inputs[i].held, answer.inputs[i].held)
    {
      assert SameShares(p.inputs[i], q.inputs[i]);
      LeftTheSame(p.inputs[i].held, q.inputs[i].held, answer.inputs[i].held);
    }
    if Waiting(p, mine) {
      NothingTheSame(p, q, answer);
    } else {
      var o :| 0 <= o < |p.outputs| && p.outputs[o].info.Some?;
      CompleteUnlessWaiting(e, p, mine, answer, o);
      SignsTheSame(e, p, q, mine, answer, o);
    }
  }

  lemma LeftTheSame(p: Held, q: Held, held: Held)
    requires p.shares == q.shares && p.proofs == q.proofs
    ensures LeavesAlone(p, held) ==> LeavesAlone(q, held)
  { }

  lemma NothingTheSame(p: Psbt, q: Psbt, answer: Psbt)
    requires ShowsTheSame(p, q) && |p.inputs| == |answer.inputs| && |p.outputs| == |answer.outputs|
    ensures SignsNothing(p, answer) == SignsNothing(q, answer)
  { }

  /** An answer that is honest for what the signer was shown is honest for the whole
    * state, signatures of the other wallet included, and the other way round. */
  lemma RequestIsEnough(e: Env, p: Psbt, mine: set<nat>, answer: Psbt)
    requires p.global.flags == 0 && OneScan(p.outputs)
    ensures HonestAnswer(e, SignerRequest(p, mine), mine, answer) <==> HonestAnswer(e, p, mine, answer)
  {
    hide HonestAnswer, OneScan;
    var shown := SignerRequest(p, mine);
    RequestShows(p, mine);
    assert ShowsTheSame(p, shown);
    forall i | 0 <= i < |p.inputs|
      ensures SameShares(shown.inputs[i], p.inputs[i])
    { assert SameShares(p.inputs[i], shown.inputs[i]); }
    if HonestAnswer(e, p, mine, answer) { HonestForBoth(e, p, shown, mine, answer); }
    if HonestAnswer(e, shown, mine, answer) { HonestForBoth(e, shown, p, mine, answer); }
  }

  lemma WaitsTheSame(p: Psbt, q: Psbt, mine: set<nat>)
    requires |p.inputs| == |q.inputs| && p.outputs == q.outputs
    requires forall i :: 0 <= i < |p.inputs| ==> SameShares(p.inputs[i], q.inputs[i])
    ensures Waiting(p, mine) == Waiting(q, mine)
  { }
}
