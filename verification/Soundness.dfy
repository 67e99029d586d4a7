/** What a state that only ever absorbed keeps true, and how absorbing moves it:
  * it grows, it repeats without effect, and its results do not depend on the
  * order things arrive in. */
module Soundness {
  import opened Wrappers
  import opened Chain
  import opened PsbtV2
  import opened Shares
  import opened Absorb
  import opened Agreement

  // -------------------------------------------------------------------------
  // The invariant of a joined state

  /** A silent payment output has its script exactly when every share is here,
    * and then the script the shares derive. */
  ghost predicate ScriptsSound(e: Env, p: Psbt)
  {
    forall o :: 0 <= o < |p.outputs| && p.outputs[o].info.Some? ==>
      && (p.outputs[o].script != NO_SCRIPT <==> Completed(p, o))
      && (Completed(p, o) ==> ScriptAt(e, p, o) == Some(p.outputs[o].script))
  }

  /** Every signature held verifies against the transaction this state builds. */
  ghost predicate SignaturesSound(e: Env, p: Psbt)
  {
    forall i :: 0 <= i < |p.inputs| && CarriesSignature(p.inputs[i].held) ==>
      && UnsignedTransaction(p).Ok?
      && SignatureVerifies(e, p.inputs, UnsignedTransaction(p).value, i) == Ok(true)
  }

  ghost predicate Sound(e: Env, p: Psbt)
  {
    && p.global.flags == 0
    && (forall i :: 0 <= i < |p.inputs| ==> CheckInput(e, p.inputs[i].fact))
    && AllSharesOk(e, p)
    && Derivable(e, p)
    && ScriptsSound(e, p)
    && SignaturesSound(e, p)
  }

  // -------------------------------------------------------------------------
  // The order of states

  function BareInput(i: Input): Input { Input(i.fact, NOTHING_HELD) }

  function BareOutput(o: Output): Output { if o.info.Some? then o.(script := NO_SCRIPT) else o }

  /** Everything that never changes after the join. */
  function Skeleton(p: Psbt): Psbt
  { p.(inputs := MapSeq(BareInput, p.inputs), outputs := MapSeq(BareOutput, p.outputs)) }

  ghost predicate HeldWithin(l: Held, r: Held)
  {
    && (forall scan :: scan in l.shares ==> scan in r.shares && r.shares[scan] == l.shares[scan])
    && (forall scan :: scan in l.proofs ==> scan in r.proofs && r.proofs[scan] == l.proofs[scan])
    && (CarriesSignature(l) ==> r.partials == l.partials && r.tap == l.tap)
  }

  ghost predicate OutputWithin(l: Output, r: Output)
  { l.info.Some? && l.script != NO_SCRIPT ==> r.script == l.script }

  /** `p` and `q` are states of one transaction, and `q` holds everything `p` does. */
  ghost predicate Within(p: Psbt, q: Psbt)
  {
    && Skeleton(p) == Skeleton(q)
    && |p.inputs| == |q.inputs| && |p.outputs| == |q.outputs|
    && (forall i :: 0 <= i < |p.inputs| ==> HeldWithin(p.inputs[i].held, q.inputs[i].held))
    && (forall o :: 0 <= o < |p.outputs| ==> OutputWithin(p.outputs[o], q.outputs[o]))
  }

  lemma SkeletonParts(p: Psbt, q: Psbt)
    requires Skeleton(p) == Skeleton(q)
    ensures p.global == q.global && |p.inputs| == |q.inputs| && |p.outputs| == |q.outputs|
    ensures forall i :: 0 <= i < |p.inputs| ==> p.inputs[i].fact == q.inputs[i].fact
    ensures forall o :: 0 <= o < |p.outputs| ==> BareOutput(p.outputs[o]) == BareOutput(q.outputs[o])
  { }

  lemma SameSkeletonFrom(p: Psbt, q: Psbt)
    requires p.global == q.global && |p.inputs| == |q.inputs| && |p.outputs| == |q.outputs|
    requires forall i :: 0 <= i < |p.inputs| ==> p.inputs[i].fact == q.inputs[i].fact
    requires forall o :: 0 <= o < |p.outputs| ==> BareOutput(p.outputs[o]) == BareOutput(q.outputs[o])
    ensures Skeleton(p) == Skeleton(q)
  { }

  lemma WithinReflexive(p: Psbt)
    ensures Within(p, p)
  { }

  lemma WithinTransitive(p: Psbt, q: Psbt, r: Psbt)
    requires Within(p, q) && Within(q, r)
    ensures Within(p, r)
  { }

  lemma WithinGrows(p: Psbt, q: Psbt)
    requires Within(p, q)
    ensures SharesGrow(p, q)
  { }

  // -------------------------------------------------------------------------
  // Absorbing keeps the invariant and only grows the state

  lemma MergeIsAbove(e: Env, state: Psbt, incoming: Psbt)
    requires |state.inputs| == |incoming.inputs| && AllSharesOk(e, state)
    ensures Within(state, Merge(state, incoming))
  { }

  lemma FillIsAbove(e: Env, merged: Psbt)
    requires Derivable(e, merged)
    ensures Within(merged, Fill(e, merged))
  { }

  lemma SignIsAbove(filled: Psbt, incoming: Psbt)
    requires |filled.inputs| == |incoming.inputs|
    ensures Within(filled, Sign(filled, incoming))
  { }

  /** The steps of an accepted absorption. */
  lemma AbsorbedParts(e: Env, state: Psbt, incoming: Psbt, source: Source, mine: set<nat>)
    requires Absorbed(e, state, incoming, source, mine).Ok?
    ensures SameSkeleton(state, incoming)
    ensures var merged := Merge(state, incoming);
      && AllSharesOk(e, merged) && Derivable(e, merged) && ScriptsOk(e, merged, incoming)
      && AbsorbedSignatures(e, Fill(e, merged), incoming, source, mine) == Absorbed(e, state, incoming, source, mine)
      && (Absorbed(e, state, incoming, source, mine).value == Fill(e, merged)
          || Absorbed(e, state, incoming, source, mine).value == Sign(Fill(e, merged), incoming))
  { }

  /** Absorbing never loses a share, a proof, a script or a signature, and never
    * touches the transaction they belong to. */
  lemma AbsorbGrows(e: Env, state: Psbt, incoming: Psbt, source: Source, mine: set<nat>)
    requires AllSharesOk(e, state) && Absorbed(e, state, incoming, source, mine).Ok?
    ensures Within(state, Absorbed(e, state, incoming, source, mine).value)
  {
    AbsorbedParts(e, state, incoming, source, mine);
    var merged := Merge(state, incoming);
    var filled := Fill(e, merged);
    MergeIsAbove(e, state, incoming);
    FillIsAbove(e, merged);
    WithinTransitive(state, merged, filled);
    SignIsAbove(filled, incoming);
    WithinTransitive(state, filled, Sign(filled, incoming));
  }

  /** The unsigned transaction of a state whose scripts are all known is the same
    * in every later state. */
  lemma TransactionIsFixed(p: Psbt, q: Psbt)
    requires Within(p, q) && UnsignedTransaction(p).Ok?
    ensures UnsignedTransaction(q) == UnsignedTransaction(p)
    ensures q.outputs == p.outputs
  {
    SkeletonParts(p, q);
    forall o | 0 <= o < |p.outputs| ensures p.outputs[o] == q.outputs[o] {
      assert OutputWithin(p.outputs[o], q.outputs[o]);
      assert BareOutput(p.outputs[o]) == BareOutput(q.outputs[o]);
      assert p.outputs[o].script != NO_SCRIPT;
    }
    SameTransactionInputs(p, q);
  }

  lemma SameTransactionInputs(p: Psbt, q: Psbt)
    requires |p.inputs| == |q.inputs| && p.outputs == q.outputs && p.global == q.global
    requires forall i :: 0 <= i < |p.inputs| ==> p.inputs[i].fact == q.inputs[i].fact
    ensures UnsignedTransaction(p) == UnsignedTransaction(q)
  {
    var height, time := (i: Input) => i.fact.minHeight, (i: Input) => i.fact.minTime;
    assert MapSeq(height, p.inputs) == MapSeq(height, q.inputs);
    assert MapSeq(time, p.inputs) == MapSeq(time, q.inputs);
    SameLockTime(p, q);
    var txIn := (i: Input) => TxIn(i.fact.coin, SequenceOf(i.fact));
    assert MapSeq(txIn, p.inputs) == MapSeq(txIn, q.inputs);
    assert (exists i :: 0 <= i < |p.inputs| && p.inputs[i].fact.sequence.None?)
      <==> (exists i :: 0 <= i < |q.inputs| && q.inputs[i].fact.sequence.None?) by {
      if i :| 0 <= i < |p.inputs| && p.inputs[i].fact.sequence.None? { assert q.inputs[i].fact.sequence.None?; }
      if i :| 0 <= i < |q.inputs| && q.inputs[i].fact.sequence.None? { assert p.inputs[i].fact.sequence.None?; }
    }
  }

  lemma SameLockTime(p: Psbt, q: Psbt)
    requires |p.inputs| == |q.inputs| && p.global == q.global
    requires forall i :: 0 <= i < |p.inputs| ==> p.inputs[i].fact == q.inputs[i].fact
    ensures LockTime(p) == LockTime(q)
  {
    forall i | 0 <= i < |p.inputs|
      ensures NeedsTime(p.inputs[i]) == NeedsTime(q.inputs[i]) && NeedsHeight(p.inputs[i]) == NeedsHeight(q.inputs[i])
      ensures AsksLockTime(p.inputs[i]) == AsksLockTime(q.inputs[i])
    { }
    var height, time := (i: Input) => i.fact.minHeight, (i: Input) => i.fact.minTime;
    assert MapSeq(height, p.inputs) == MapSeq(height, q.inputs);
    assert MapSeq(time, p.inputs) == MapSeq(time, q.inputs);
  }

  // -------------------------------------------------------------------------

  /** Filling in the derived scripts makes the scripts sound. */
  lemma FillMakesScriptsSound(e: Env, merged: Psbt, incoming: Psbt)
    requires |merged.outputs| == |incoming.outputs| && Derivable(e, merged) && ScriptsOk(e, merged, incoming)
    requires forall o :: 0 <= o < |merged.outputs| && merged.outputs[o].info.Some? ==>
      merged.outputs[o].script != NO_SCRIPT ==> Completed(merged, o)
    ensures ScriptsSound(e, Fill(e, merged))
  {
    var filled := Fill(e, merged);
    FillIsAbove(e, merged);
    WithinGrows(merged, filled);
    forall o | 0 <= o < |filled.outputs| && filled.outputs[o].info.Some?
      ensures filled.outputs[o].script != NO_SCRIPT <==> Completed(filled, o)
      ensures Completed(filled, o) ==> ScriptAt(e, filled, o) == Some(filled.outputs[o].script)
    {
      assert filled.outputs[o] == FilledOutput(e, merged, o);
      if Completed(merged, o) {
        LaterSharesKeepTheScript(e, merged, filled, o);
        assert ScriptOk(e, merged, incoming, o);
        ScriptIsTaproot(e, merged, o);
      }
    }
  }

  lemma ScriptIsTaproot(e: Env, p: Psbt, o: nat)
    requires o < |p.outputs| && p.outputs[o].info.Some? && ScriptAt(e, p, o).Some?
    ensures ScriptAt(e, p, o).value.P2tr?
  { }

  /** Scripts stay sound when only signatures are added. */
  lemma ScriptsSoundAfterSigning(e: Env, filled: Psbt, incoming: Psbt)
    requires |filled.inputs| == |incoming.inputs| && ScriptsSound(e, filled) && Derivable(e, filled)
    ensures ScriptsSound(e, Sign(filled, incoming)) && Derivable(e, Sign(filled, incoming))
  {
    var signed := Sign(filled, incoming);
    forall i | 0 <= i < |filled.inputs|
      ensures signed.inputs[i].fact == filled.inputs[i].fact
      ensures signed.inputs[i].held.shares == filled.inputs[i].held.shares
    {
      assert signed.inputs[i].held == SignedHeld(filled.inputs[i].held, incoming.inputs[i].held);
    }
    forall o | 0 <= o < |filled.outputs| && filled.outputs[o].info.Some?
      ensures Completed(filled, o) == Completed(signed, o)
      ensures Completed(filled, o) ==> ScriptAt(e, signed, o) == ScriptAt(e, filled, o)
    {
      assert SharesGrow(filled, signed) && SharesGrow(signed, filled);
      if Completed(filled, o) { LaterSharesKeepTheScript(e, filled, signed, o); }
      if Completed(signed, o) { LaterSharesKeepTheScript(e, signed, filled, o); }
    }
  }

  lemma FillKeepsShares(e: Env, merged: Psbt)
    requires AllSharesOk(e, merged) && Derivable(e, merged)
    ensures AllSharesOk(e, Fill(e, merged)) && Derivable(e, Fill(e, merged))
  {
    var filled := Fill(e, merged);
    assert forall i :: 0 <= i < |merged.inputs| ==> SameShares(merged.inputs[i], filled.inputs[i]);
    FillIsAbove(e, merged);
    WithinGrows(merged, filled);
    PaysTheSame(merged.outputs, filled.outputs);
    SharesStayOk(e, merged, filled);
    forall o | 0 <= o < |filled.outputs| && Completed(filled, o) ensures ScriptAt(e, filled, o).Some? {
      assert Completed(merged, o);
      LaterSharesKeepTheScript(e, merged, filled, o);
    }
  }

  lemma PaysTheSame(left: seq<Output>, right: seq<Output>)
    requires |left| == |right| && forall o :: 0 <= o < |left| ==> left[o].info == right[o].info
    ensures forall scan :: PaysScan(left, scan) <==> PaysScan(right, scan)
  { }

  ghost predicate SameShares(l: Input, r: Input)
  { l.fact == r.fact && l.held.shares == r.held.shares && l.held.proofs == r.held.proofs }

  lemma SharesStayOk(e: Env, p: Psbt, q: Psbt)
    requires AllSharesOk(e, p) && p.global == q.global
    requires |p.inputs| == |q.inputs| && |p.outputs| == |q.outputs|
    requires forall o :: 0 <= o < |p.outputs| ==> p.outputs[o].info == q.outputs[o].info
    requires forall i :: 0 <= i < |p.inputs| ==> SameShares(p.inputs[i], q.inputs[i])
    ensures AllSharesOk(e, q)
  { }

  lemma SignKeepsShares(e: Env, filled: Psbt, incoming: Psbt)
    requires |filled.inputs| == |incoming.inputs| && AllSharesOk(e, filled)
    ensures AllSharesOk(e, Sign(filled, incoming))
  { }

  /** A signature that verified keeps verifying in every later state. */
  lemma SignaturesStaySound(e: Env, p: Psbt, q: Psbt, i: nat)
    requires Within(p, q) && SignaturesSound(e, p) && i < |p.inputs| && CarriesSignature(p.inputs[i].held)
    ensures UnsignedTransaction(q).Ok?
    ensures SignatureVerifies(e, q.inputs, UnsignedTransaction(q).value, i) == Ok(true)
  {
    TransactionIsFixed(p, q);
    SkeletonParts(p, q);
    assert HeldWithin(p.inputs[i].held, q.inputs[i].held);
    SameSignatureCheck(e, p.inputs, q.inputs, UnsignedTransaction(p).value, i);
  }

  lemma SigningKeepsSignaturesSound(e: Env, filled: Psbt, incoming: Psbt, source: Source, mine: set<nat>)
    requires |filled.inputs| == |incoming.inputs| && SignaturesSound(e, filled)
    requires AbsorbedSignatures(e, filled, incoming, source, mine).Ok?
    ensures SignaturesSound(e, AbsorbedSignatures(e, filled, incoming, source, mine).value)
  {
    if SignedInputs(incoming) != {} {
      var signed := Sign(filled, incoming);
      var tx := UnsignedTransaction(filled).value;
      SignIsAbove(filled, incoming);
      TransactionIsFixed(filled, signed);
      forall i | 0 <= i < |signed.inputs| && CarriesSignature(signed.inputs[i].held)
        ensures SignatureVerifies(e, signed.inputs, tx, i) == Ok(true)
      {
        assert signed.inputs[i].held == SignedHeld(filled.inputs[i].held, incoming.inputs[i].held);
        SkeletonParts(filled, signed);
        if CarriesSignature(filled.inputs[i].held) {
          SameSignatureCheck(e, filled.inputs, signed.inputs, tx, i);
        } else {
          assert SignatureOk(e, filled, incoming, tx, source, mine, i);
          SameSignatureCheck(e, Probe(filled, incoming, i), signed.inputs, tx, i);
        }
      }
    }
  }

  /** Whatever arrives, from whoever it comes: what is accepted keeps every check
    * true that was ever made. */
  lemma AbsorbKeepsSound(e: Env, state: Psbt, incoming: Psbt, source: Source, mine: set<nat>)
    requires Sound(e, state) && Absorbed(e, state, incoming, source, mine).Ok?
    ensures Sound(e, Absorbed(e, state, incoming, source, mine).value)
  {
    AbsorbedParts(e, state, incoming, source, mine);
    var merged := Merge(state, incoming);
    var filled := Fill(e, merged);
    MergeIsAbove(e, state, incoming);
    WithinGrows(state, merged);
    forall o | 0 <= o < |merged.outputs| && merged.outputs[o].info.Some? && merged.outputs[o].script != NO_SCRIPT
      ensures Completed(merged, o)
    {
      assert Completed(state, o);
      LaterSharesKeepTheScript(e, state, merged, o);
    }
    FillMakesScriptsSound(e, merged, incoming);
    FillKeepsShares(e, merged);
    FillIsAbove(e, merged);
    WithinTransitive(state, merged, filled);
    forall i | 0 <= i < |filled.inputs| && CarriesSignature(filled.inputs[i].held)
      ensures UnsignedTransaction(filled).Ok?
      ensures SignatureVerifies(e, filled.inputs, UnsignedTransaction(filled).value, i) == Ok(true)
    {
      SignaturesStaySound(e, state, filled, i);
    }
    SigningKeepsSignaturesSound(e, filled, incoming, source, mine);
    SignKeepsShares(e, filled, incoming);
    ScriptsSoundAfterSigning(e, filled, incoming);
    AbsorbGrows(e, state, incoming, source, mine);
    SkeletonParts(state, Absorbed(e, state, incoming, source, mine).value);
  }

  // -------------------------------------------------------------------------
  // Two states of one transaction

  lemma SameStateFrom(p: Psbt, q: Psbt)
    requires Skeleton(p) == Skeleton(q)
    requires forall i :: 0 <= i < |p.inputs| && i < |q.inputs| ==> p.inputs[i].held == q.inputs[i].held
    requires forall o :: 0 <= o < |p.outputs| && o < |q.outputs| ==> p.outputs[o].script == q.outputs[o].script
    ensures p == q
  { }

  lemma WithinBothWays(p: Psbt, q: Psbt)
    requires Within(p, q) && Within(q, p)
    ensures p == q
  {
    SkeletonParts(p, q);
    forall i | 0 <= i < |p.inputs| ensures p.inputs[i].held == q.inputs[i].held {
      assert HeldWithin(p.inputs[i].held, q.inputs[i].held) && HeldWithin(q.inputs[i].held, p.inputs[i].held);
      assert p.inputs[i].held.shares == q.inputs[i].held.shares;
      assert p.inputs[i].held.proofs == q.inputs[i].held.proofs;
    }
    forall o | 0 <= o < |p.outputs| ensures p.outputs[o].script == q.outputs[o].script {
      assert OutputWithin(p.outputs[o], q.outputs[o]) && OutputWithin(q.outputs[o], p.outputs[o]);
      assert BareOutput(p.outputs[o]) == BareOutput(q.outputs[o]);
    }
    SameStateFrom(p, q);
  }

  lemma SoundSkeleton(p: Psbt, q: Psbt)
    requires Skeleton(p) == Skeleton(q) && (Within(p, q) || Within(q, p))
    ensures SameSkeleton(p, q)
  { }

  /** What one sound state holds passes every check another one makes. */
  lemma SoundSharesArrive(e: Env, state: Psbt, incoming: Psbt, i: nat)
    requires Sound(e, incoming) && Skeleton(state) == Skeleton(incoming) && i < |state.inputs|
    ensures i < |incoming.inputs| && ArrivedOk(e, state, incoming, i)
  { }

  lemma SameRecipients(e: Env, p: Psbt, q: Psbt)
    requires Skeleton(p) == Skeleton(q) && RecipientsOk(e.curve, q.outputs)
    ensures RecipientsOk(e.curve, p.outputs)
  { }

  ghost predicate ProofsPaired(h: Held) { h.proofs.Keys == h.shares.Keys }

  lemma MergeHeldOrdered(mine: Held, theirs: Held)
    requires ProofsPaired(mine) && ProofsPaired(theirs)
    ensures HeldWithin(mine, theirs) ==>
      MergeHeld(mine, theirs).shares == theirs.shares && MergeHeld(mine, theirs).proofs == theirs.proofs
    ensures HeldWithin(theirs, mine) ==>
      MergeHeld(mine, theirs).shares == mine.shares && MergeHeld(mine, theirs).proofs == mine.proofs
  { }

  lemma CheckedAreProofsPaired(e: Env, p: Psbt, i: nat)
    requires AllSharesOk(e, p) && i < |p.inputs|
    ensures ProofsPaired(p.inputs[i].held)
  { }

  /** One of the two is within the other, and `larger` is that other. */
  ghost predicate Larger(state: Psbt, incoming: Psbt, larger: Psbt)
  { (Within(state, incoming) && larger == incoming) || (Within(incoming, state) && larger == state) }

  /** When one sound state is within another, merging them gives the larger. */
  lemma MergeOfOrdered(e: Env, state: Psbt, incoming: Psbt, larger: Psbt)
    requires AllSharesOk(e, state) && AllSharesOk(e, incoming) && Larger(state, incoming, larger)
    ensures |state.inputs| == |incoming.inputs| == |larger.inputs|
    ensures forall i :: 0 <= i < |larger.inputs| ==> SameShares(Merge(state, incoming).inputs[i], larger.inputs[i])
  {
    SkeletonParts(state, incoming);
    forall i | 0 <= i < |larger.inputs| ensures SameShares(Merge(state, incoming).inputs[i], larger.inputs[i]) {
      CheckedAreProofsPaired(e, state, i);
      CheckedAreProofsPaired(e, incoming, i);
      MergeHeldOrdered(state.inputs[i].held, incoming.inputs[i].held);
    }
  }

  /** Deriving reads only facts, shares and recipients. */
  lemma SameDerivation(e: Env, p: Psbt, q: Psbt)
    requires |p.inputs| == |q.inputs| && |p.outputs| == |q.outputs|
    requires forall o :: 0 <= o < |p.outputs| ==> p.outputs[o].info == q.outputs[o].info
    requires forall i :: 0 <= i < |p.inputs| ==> SameShares(p.inputs[i], q.inputs[i])
    ensures forall o: nat :: Completed(p, o) == Completed(q, o)
    ensures forall o: nat :: Completed(p, o) ==> ScriptAt(e, p, o) == ScriptAt(e, q, o)
    ensures Derivable(e, p) == Derivable(e, q)
  {
    forall i | 0 <= i < |p.inputs|
      ensures p.inputs[i].fact == q.inputs[i].fact && p.inputs[i].held.shares == q.inputs[i].held.shares
    {
      assert SameShares(p.inputs[i], q.inputs[i]);
    }
    assert SharesGrow(p, q) && SharesGrow(q, p);
    forall o: nat
      ensures Completed(p, o) == Completed(q, o)
      ensures Completed(p, o) ==> ScriptAt(e, p, o) == ScriptAt(e, q, o)
    {
      if Completed(p, o) { LaterSharesKeepTheScript(e, p, q, o); }
      if Completed(q, o) { LaterSharesKeepTheScript(e, q, p, o); }
    }
  }

  /** Absorbing one sound state of a transaction into another, when they are
    * ordered, is accepted and leaves exactly the larger one: a duplicate or an
    * older state changes nothing, and a newer one is taken in whole. */
  lemma AbsorbOfOrdered(e: Env, state: Psbt, incoming: Psbt, larger: Psbt, mine: set<nat>)
    requires Sound(e, state) && Sound(e, incoming)
    requires Larger(state, incoming, larger)
    ensures Absorbed(e, state, incoming, Peer, mine) == Ok(larger)
  {
    SkeletonParts(state, incoming);
    SoundSkeleton(state, incoming);
    SameRecipients(e, state, incoming);
    forall i | 0 <= i < |incoming.inputs| ensures ArrivedOk(e, state, incoming, i) {
      SoundSharesArrive(e, state, incoming, i);
    }
    var merged := Merge(state, incoming);
    MergeOfOrdered(e, state, incoming, larger);
    forall o | 0 <= o < |merged.outputs|
      ensures BareOutput(merged.outputs[o]) == BareOutput(larger.outputs[o])
      ensures merged.outputs[o].info == larger.outputs[o].info
    {
      assert BareOutput(state.outputs[o]) == BareOutput(incoming.outputs[o]);
    }
    forall i | 0 <= i < |merged.inputs| ensures SameShares(larger.inputs[i], merged.inputs[i]) {
      assert SameShares(merged.inputs[i], larger.inputs[i]);
    }
    SharesStayOk(e, larger, merged);
    SameDerivation(e, merged, larger);
    forall o | 0 <= o < |merged.outputs| && merged.outputs[o].info.Some?
      ensures ScriptOk(e, merged, incoming, o)
    {
      OrderedScripts(e, state, incoming, larger, o);
    }
    var filled := Fill(e, merged);
    forall o | 0 <= o < |filled.outputs| ensures filled.outputs[o] == larger.outputs[o] {
      assert filled.outputs[o] == FilledOutput(e, merged, o);
      assert BareOutput(merged.outputs[o]) == BareOutput(larger.outputs[o]);
      if merged.outputs[o].info.Some? { OrderedScripts(e, state, incoming, larger, o); }
    }
    assert filled.outputs == larger.outputs;
    OrderedSignatures(e, state, incoming, larger, filled, mine);
  }

  lemma OrderedScripts(e: Env, state: Psbt, incoming: Psbt, larger: Psbt, o: nat)
    requires Sound(e, state) && Sound(e, incoming)
    requires Larger(state, incoming, larger)
    requires o < |state.outputs| && state.outputs[o].info.Some?
    ensures o < |incoming.outputs| && o < |larger.outputs| && larger.outputs[o].info.Some?
    ensures state.outputs[o].script == NO_SCRIPT || state.outputs[o].script == larger.outputs[o].script
    ensures incoming.outputs[o].script == NO_SCRIPT || incoming.outputs[o].script == larger.outputs[o].script
    ensures larger.outputs[o].script != NO_SCRIPT <==> Completed(larger, o)
    ensures Completed(larger, o) ==> ScriptAt(e, larger, o) == Some(larger.outputs[o].script)
  {
    SkeletonParts(state, incoming);
    assert BareOutput(state.outputs[o]) == BareOutput(incoming.outputs[o]);
    if Within(state, incoming) { assert OutputWithin(state.outputs[o], incoming.outputs[o]); }
    if Within(incoming, state) { assert OutputWithin(incoming.outputs[o], state.outputs[o]); }
  }

  lemma SignedHeldOrdered(mine: Held, theirs: Held)
    ensures HeldWithin(mine, theirs) ==>
      var h := SignedHeld(MergeHeld(mine, theirs), theirs); h.partials == theirs.partials && h.tap == theirs.tap
    ensures HeldWithin(theirs, mine) ==>
      var h := SignedHeld(MergeHeld(mine, theirs), theirs); h.partials == mine.partials && h.tap == mine.tap
  { }

  lemma SignOfOrdered(e: Env, state: Psbt, incoming: Psbt, larger: Psbt, filled: Psbt)
    requires AllSharesOk(e, state) && AllSharesOk(e, incoming) && Larger(state, incoming, larger)
    requires |state.inputs| == |incoming.inputs| && filled == Merge(state, incoming).(outputs := larger.outputs)
    ensures Sign(filled, incoming) == larger
  {
    SkeletonParts(state, incoming);
    MergeOfOrdered(e, state, incoming, larger);
    forall i | 0 <= i < |larger.inputs|
      ensures Input(filled.inputs[i].fact, SignedHeld(filled.inputs[i].held, incoming.inputs[i].held))
         == larger.inputs[i]
    {
      assert SameShares(Merge(state, incoming).inputs[i], larger.inputs[i]);
      SignedHeldOrdered(state.inputs[i].held, incoming.inputs[i].held);
    }
    assert Sign(filled, incoming).inputs == larger.inputs;
  }

  lemma OrderedSignatures(e: Env, state: Psbt, incoming: Psbt, larger: Psbt, filled: Psbt, mine: set<nat>)
    requires Sound(e, state) && Sound(e, incoming) && Larger(state, incoming, larger)
    requires |state.inputs| == |incoming.inputs| && filled == Merge(state, incoming).(outputs := larger.outputs)
    ensures AbsorbedSignatures(e, filled, incoming, Peer, mine) == Ok(larger)
  {
    hide Sound, Larger, SignatureVerifies, UnsignedTransaction, Skeleton;
    OrderedParts(e, state, incoming, larger);
    SignOfOrdered(e, state, incoming, larger, filled);
    if SignedInputs(incoming) == {} {
      forall i | 0 <= i < |filled.inputs| ensures filled.inputs[i] == larger.inputs[i] {
        assert i !in SignedInputs(incoming);
        assert Sign(filled, incoming).inputs[i] == larger.inputs[i];
      }
      assert filled.inputs == larger.inputs;
    } else {
      var tx := LargerTransaction(e, state, incoming, larger);
      forall i | 0 <= i < |filled.inputs| ensures filled.inputs[i].fact == larger.inputs[i].fact {
        assert Sign(filled, incoming).inputs[i] == larger.inputs[i];
      }
      SameTransactionInputs(filled, larger);
      forall i | 0 <= i < |filled.inputs| ensures SignatureOk(e, filled, incoming, tx, Peer, mine, i) {
        if CarriesSignature(incoming.inputs[i].held) {
          WithinLarger(incoming, state, larger);
          SignaturesStaySound(e, incoming, larger, i);
          assert HeldWithin(incoming.inputs[i].held, larger.inputs[i].held);
          SameSignatureCheck(e, Probe(filled, incoming, i), larger.inputs, tx, i);
        }
      }
    }
  }

  lemma OrderedParts(e: Env, state: Psbt, incoming: Psbt, larger: Psbt)
    requires Sound(e, state) && Sound(e, incoming) && Larger(state, incoming, larger)
    ensures |larger.inputs| == |incoming.inputs| && |larger.outputs| == |incoming.outputs|
    ensures larger.global == state.global
    ensures AllSharesOk(e, state) && AllSharesOk(e, incoming) && SignaturesSound(e, incoming)
  { }

  lemma WithinLarger(incoming: Psbt, state: Psbt, larger: Psbt)
    requires Larger(state, incoming, larger)
    ensures Within(incoming, larger) && Within(state, larger)
  { }

  lemma LargerTransaction(e: Env, state: Psbt, incoming: Psbt, larger: Psbt) returns (tx: Transaction)
    requires Sound(e, incoming) && Larger(state, incoming, larger) && SignedInputs(incoming) != {}
    ensures UnsignedTransaction(larger) == Ok(tx)
  {
    var s :| s in SignedInputs(incoming);
    WithinLarger(incoming, state, larger);
    SignaturesStaySound(e, incoming, larger, s);
    tx := UnsignedTransaction(larger).value;
  }
}
