/** Three laws of taking things in: it is idempotent, its results do not depend
  * on the order of arrival, and every accepted change is progress. */
module Laws {
  import opened Wrappers
  import opened Sets
  import opened Chain
  import opened PsbtV2
  import opened Shares
  import opened Absorb
  import opened Agreement
  import opened Soundness
  import Dleq

  // -------------------------------------------------------------------------
  // Idempotence

  lemma MergeAgain(mine: Held, arrived: Held, later: Held)
    requires later.shares == MergeHeld(mine, arrived).shares
    ensures MergeHeld(later, arrived) == later
  { }

  /** What the result of an absorption has in common with what arrived. */
  lemma ResultHoldsTheArrival(e: Env, state: Psbt, incoming: Psbt, source: Source, mine: set<nat>, i: nat)
    requires Absorbed(e, state, incoming, source, mine).Ok? && i < |state.inputs|
    ensures var next := Absorbed(e, state, incoming, source, mine).value;
      && i < |incoming.inputs| == |next.inputs|
      && next.inputs[i].fact == state.inputs[i].fact
      && next.inputs[i].held.shares == MergeHeld(state.inputs[i].held, incoming.inputs[i].held).shares
      && next.inputs[i].held.shares.Keys == state.inputs[i].held.shares.Keys + incoming.inputs[i].held.shares.Keys
      && next.inputs[i].held.proofs == MergeHeld(state.inputs[i].held, incoming.inputs[i].held).proofs
      && (CarriesSignature(next.inputs[i].held) <==>
            CarriesSignature(state.inputs[i].held) || CarriesSignature(incoming.inputs[i].held))
  {
    hide Absorbed, AllSharesOk, Derivable, ScriptsOk, SameSkeleton, SignatureOk, UnsignedTransaction, FilledOutput;
    AbsorbedParts(e, state, incoming, source, mine);
    var merged := Merge(state, incoming);
    var next := Absorbed(e, state, incoming, source, mine).value;
    assert merged.inputs[i] == Input(state.inputs[i].fact, MergeHeld(state.inputs[i].held, incoming.inputs[i].held));
    if SignedInputs(incoming) == {} {
      assert i !in SignedInputs(incoming);
      assert next.inputs[i] == merged.inputs[i];
    } else {
      assert next == Sign(Fill(e, merged), incoming);
      assert next.inputs[i].held == SignedHeld(merged.inputs[i].held, incoming.inputs[i].held);
    }
  }

  /** After merging, shares no longer change. */
  lemma ResultShares(e: Env, state: Psbt, incoming: Psbt, source: Source, mine: set<nat>)
    requires Absorbed(e, state, incoming, source, mine).Ok?
    ensures var next := Absorbed(e, state, incoming, source, mine).value;
      SharesGrow(Merge(state, incoming), next) && SharesGrow(next, Merge(state, incoming))
  {
    hide Absorbed, AbsorbedSignatures, AllSharesOk, Derivable, ScriptsOk, FilledOutput, MergeHeld, Completed;
    AbsorbedParts(e, state, incoming, source, mine);
    var merged := Merge(state, incoming);
    var next := Absorbed(e, state, incoming, source, mine).value;
    assert next.outputs == Fill(e, merged).outputs;
    forall o | 0 <= o < |merged.outputs| ensures next.outputs[o].info == merged.outputs[o].info {
      FilledInfo(e, merged, o);
    }
    forall i | 0 <= i < |merged.inputs|
      ensures merged.inputs[i].fact == next.inputs[i].fact && merged.inputs[i].held.shares == next.inputs[i].held.shares
    {
      ResultHoldsTheArrival(e, state, incoming, source, mine, i);
    }
  }

  lemma FilledInfo(e: Env, merged: Psbt, o: nat)
    requires o < |merged.outputs| && Derivable(e, merged)
    ensures FilledOutput(e, merged, o).info == merged.outputs[o].info
  { }

  lemma ScriptStaysOk(e: Env, merged: Psbt, next: Psbt, incoming: Psbt, o: nat)
    requires SharesGrow(merged, next) && SharesGrow(next, merged)
    requires o < |merged.outputs| == |incoming.outputs| && merged.outputs[o].info.Some?
    requires Derivable(e, merged) && ScriptOk(e, merged, incoming, o)
    requires next.outputs[o] == FilledOutput(e, merged, o)
    ensures ScriptOk(e, next, incoming, o)
  {
    hide CompleteFor, ScriptAt;
    if Completed(merged, o) { LaterSharesKeepTheScript(e, merged, next, o); }
    if Completed(next, o) { LaterSharesKeepTheScript(e, next, merged, o); }
  }

  /** The derived scripts the result shows, and what was sent, agree. */
  lemma ResultScripts(e: Env, state: Psbt, incoming: Psbt, source: Source, mine: set<nat>)
    requires Sound(e, state) && Absorbed(e, state, incoming, source, mine).Ok?
    ensures var next := Absorbed(e, state, incoming, source, mine).value;
      |next.outputs| == |incoming.outputs| && ScriptsOk(e, next, incoming)
  {
    hide Absorbed, AbsorbedSignatures, AllSharesOk, Derivable, FilledOutput, MergeHeld, SharesGrow, ScriptOk;
    AbsorbedParts(e, state, incoming, source, mine);
    ResultShares(e, state, incoming, source, mine);
    var merged := Merge(state, incoming);
    var next := Absorbed(e, state, incoming, source, mine).value;
    assert next.outputs == Fill(e, merged).outputs;
    forall o | 0 <= o < |next.outputs| && next.outputs[o].info.Some? ensures ScriptOk(e, next, incoming, o) {
      FilledInfo(e, merged, o);
      ScriptStaysOk(e, merged, next, incoming, o);
    }
  }

  lemma FillOfSound(e: Env, p: Psbt)
    requires Derivable(e, p) && ScriptsSound(e, p)
    ensures Fill(e, p) == p
  { }

  lemma StillSameSkeleton(e: Env, state: Psbt, incoming: Psbt, next: Psbt)
    requires SameSkeleton(state, incoming) && Within(state, next) && ScriptsSound(e, next)
    requires |next.outputs| == |incoming.outputs| && ScriptsOk(e, next, incoming)
    ensures SameSkeleton(next, incoming)
  { }

  /** Taking in the same thing twice is taking it in once. */
  lemma AbsorbIsIdempotent(e: Env, state: Psbt, incoming: Psbt, source: Source, mine: set<nat>)
    requires Sound(e, state) && Absorbed(e, state, incoming, source, mine).Ok?
    ensures var next := Absorbed(e, state, incoming, source, mine).value;
      Absorbed(e, next, incoming, source, mine) == Ok(next)
  {
    hide ArrivedOk, ScriptsOk, ScriptAt, SignatureVerifies, UnsignedTransaction, SameSkeleton, MergeHeld, CheckInput,
         AbsorbedSignatures, InputSharesOk, Skeleton;
    var next := Absorbed(e, state, incoming, source, mine).value;
    AbsorbedParts(e, state, incoming, source, mine);
    AbsorbKeepsSound(e, state, incoming, source, mine);
    AbsorbGrows(e, state, incoming, source, mine);
    SkeletonParts(state, next);
    ResultScripts(e, state, incoming, source, mine);
    StillSameSkeleton(e, state, incoming, next);
    WithinGrows(state, next);
    PaysTheSame(state.outputs, next.outputs);
    forall i | 0 <= i < |incoming.inputs| ensures ArrivedOk(e, next, incoming, i) {
      assert ArrivedOk(e, state, incoming, i);
      ArrivesAgain(e, state, next, incoming, i);
    }
    forall i | 0 <= i < |next.inputs| ensures Merge(next, incoming).inputs[i] == next.inputs[i] {
      ResultHoldsTheArrival(e, state, incoming, source, mine, i);
      MergeAgain(state.inputs[i].held, incoming.inputs[i].held, next.inputs[i].held);
    }
    assert Merge(next, incoming).inputs == next.inputs;
    assert Merge(next, incoming) == next;
    FillOfSound(e, next);
    SignaturesAgain(e, state, incoming, source, mine);
  }

  lemma ArrivesAgain(e: Env, state: Psbt, next: Psbt, incoming: Psbt, i: nat)
    requires i < |incoming.inputs| && i < |state.inputs| && i < |next.inputs|
    requires ArrivedOk(e, state, incoming, i) && state.inputs[i].fact == next.inputs[i].fact
    requires forall scan :: PaysScan(state.outputs, scan) <==> PaysScan(next.outputs, scan)
    ensures ArrivedOk(e, next, incoming, i)
  { }

  lemma SignaturesAgain(e: Env, state: Psbt, incoming: Psbt, source: Source, mine: set<nat>)
    requires Sound(e, state) && Absorbed(e, state, incoming, source, mine).Ok?
    ensures var next := Absorbed(e, state, incoming, source, mine).value;
      |next.inputs| == |incoming.inputs| && AbsorbedSignatures(e, next, incoming, source, mine) == Ok(next)
  {
    hide SignatureVerifies, UnsignedTransaction, ScriptAt, InputSharesOk, Derivable, CheckInput;
    var next := Absorbed(e, state, incoming, source, mine).value;
    AbsorbedParts(e, state, incoming, source, mine);
    if SignedInputs(incoming) != {} {
      var filled := Fill(e, Merge(state, incoming));
      var tx := UnsignedTransaction(filled).value;
      SignIsAbove(filled, incoming);
      TransactionIsFixed(filled, next);
      SkeletonParts(filled, next);
      forall i | 0 <= i < |next.inputs| ensures SignatureOk(e, next, incoming, tx, source, mine, i) {
        assert SignatureOk(e, filled, incoming, tx, source, mine, i);
        SameSignatureCheck(e, Probe(filled, incoming, i), Probe(next, incoming, i), tx, i);
      }
      forall i | 0 <= i < |next.inputs| ensures Sign(next, incoming).inputs[i] == next.inputs[i] {
        assert next.inputs[i].held == SignedHeld(filled.inputs[i].held, incoming.inputs[i].held);
      }
      assert Sign(next, incoming).inputs == next.inputs;
    }
  }

  // -------------------------------------------------------------------------
  // Order of arrival

  /** The same coins, share values, scripts and signed inputs. */
  ghost predicate SameResults(p: Psbt, q: Psbt)
  {
    && Skeleton(p) == Skeleton(q)
    && |p.inputs| == |q.inputs|
    && (forall i :: 0 <= i < |p.inputs| ==> p.inputs[i].held.shares == q.inputs[i].held.shares)
    && p.outputs == q.outputs
    && SignedInputs(p) == SignedInputs(q)
  }

  lemma ScriptsFollowFromShares(e: Env, p: Psbt, q: Psbt)
    requires Sound(e, p) && Sound(e, q) && Skeleton(p) == Skeleton(q) && |p.inputs| == |q.inputs|
    requires forall i :: 0 <= i < |p.inputs| ==> p.inputs[i].held.shares == q.inputs[i].held.shares
    ensures p.outputs == q.outputs
  {
    SkeletonParts(p, q);
    forall o | 0 <= o < |p.outputs| ensures p.outputs[o].info == q.outputs[o].info {
      assert BareOutput(p.outputs[o]) == BareOutput(q.outputs[o]);
    }
    assert SharesGrow(p, q) && SharesGrow(q, p);
    forall o | 0 <= o < |p.outputs| ensures p.outputs[o] == q.outputs[o] {
      assert BareOutput(p.outputs[o]) == BareOutput(q.outputs[o]);
      if p.outputs[o].info.Some? {
        if Completed(p, o) { LaterSharesKeepTheScript(e, p, q, o); }
        if Completed(q, o) { LaterSharesKeepTheScript(e, q, p, o); }
      }
    }
  }

  /** A verified share is the only one its input and scan key can have. */
  lemma SharesAreUnique(e: Env, p: Psbt, q: Psbt, i: nat)
    requires Dleq.Sound(e.curve) && AllSharesOk(e, p) && AllSharesOk(e, q)
    requires i < |p.inputs| && i < |q.inputs| && p.inputs[i].fact == q.inputs[i].fact
    requires p.inputs[i].held.shares.Keys == q.inputs[i].held.shares.Keys
    ensures p.inputs[i].held.shares == q.inputs[i].held.shares
  { }

  /** When two arrivals are accepted in both orders, both orders end with the same
    * shares, scripts and signed inputs. */
  lemma OrderOfArrivalDoesNotMatter(e: Env, state: Psbt, a: Psbt, b: Psbt, fromA: Source, fromB: Source, mine: set<nat>)
    requires Dleq.Sound(e.curve) && Sound(e, state)
    requires Absorbed(e, state, a, fromA, mine).Ok? && Absorbed(e, state, b, fromB, mine).Ok?
    requires Absorbed(e, Absorbed(e, state, a, fromA, mine).value, b, fromB, mine).Ok?
    requires Absorbed(e, Absorbed(e, state, b, fromB, mine).value, a, fromA, mine).Ok?
    ensures SameResults(Absorbed(e, Absorbed(e, state, a, fromA, mine).value, b, fromB, mine).value,
                        Absorbed(e, Absorbed(e, state, b, fromB, mine).value, a, fromA, mine).value)
  {
    hide Absorbed, AbsorbedSignatures, MergeHeld, UnsignedTransaction, SignatureVerifies, ScriptAt, InputSharesOk;
    var p := TwoArrivals(e, state, a, b, fromA, fromB, mine);
    var q := TwoArrivals(e, state, b, a, fromB, fromA, mine);
    SkeletonParts(state, p);
    SkeletonParts(state, q);
    forall i | 0 <= i < |p.inputs| ensures p.inputs[i].held.shares == q.inputs[i].held.shares {
      SharesAreUnique(e, p, q, i);
    }
    ScriptsFollowFromShares(e, p, q);
    assert SignedInputs(p) == SignedInputs(q);
  }

  lemma TwoArrivals(e: Env, state: Psbt, a: Psbt, b: Psbt, fromA: Source, fromB: Source, mine: set<nat>)
    returns (p: Psbt)
    requires Sound(e, state) && Absorbed(e, state, a, fromA, mine).Ok?
    requires Absorbed(e, Absorbed(e, state, a, fromA, mine).value, b, fromB, mine).Ok?
    ensures p == Absorbed(e, Absorbed(e, state, a, fromA, mine).value, b, fromB, mine).value
    ensures Sound(e, p) && Within(state, p) && |a.inputs| == |b.inputs| == |state.inputs| == |p.inputs|
    ensures forall i :: 0 <= i < |p.inputs| ==>
      p.inputs[i].held.shares.Keys == state.inputs[i].held.shares.Keys + a.inputs[i].held.shares.Keys
        + b.inputs[i].held.shares.Keys
    ensures forall i :: 0 <= i < |p.inputs| ==>
      (CarriesSignature(p.inputs[i].held) <==>
        CarriesSignature(state.inputs[i].held) || CarriesSignature(a.inputs[i].held)
        || CarriesSignature(b.inputs[i].held))
  {
    hide Absorbed, AbsorbedSignatures, MergeHeld, UnsignedTransaction, SignatureVerifies, ScriptAt, InputSharesOk;
    var middle := Absorbed(e, state, a, fromA, mine).value;
    p := Absorbed(e, middle, b, fromB, mine).value;
    AbsorbKeepsSound(e, state, a, fromA, mine);
    AbsorbKeepsSound(e, middle, b, fromB, mine);
    AbsorbGrows(e, state, a, fromA, mine);
    AbsorbGrows(e, middle, b, fromB, mine);
    WithinTransitive(state, middle, p);
    AbsorbedParts(e, state, a, fromA, mine);
    AbsorbedParts(e, middle, b, fromB, mine);
    forall i | 0 <= i < |state.inputs|
      ensures i < |p.inputs| && i < |a.inputs| && i < |b.inputs|
      ensures p.inputs[i].held.shares.Keys
        == state.inputs[i].held.shares.Keys + a.inputs[i].held.shares.Keys + b.inputs[i].held.shares.Keys
      ensures CarriesSignature(p.inputs[i].held) <==>
        CarriesSignature(state.inputs[i].held) || CarriesSignature(a.inputs[i].held)
        || CarriesSignature(b.inputs[i].held)
    {
      ResultHoldsTheArrival(e, state, a, fromA, mine, i);
      SkeletonParts(state, middle);
      ResultHoldsTheArrival(e, middle, b, fromB, mine, i);
    }
  }

  // -------------------------------------------------------------------------
  // Progress

  function MissingShares(p: Psbt): set<(nat, nat)>
  {
    set i, o | 0 <= i < |p.inputs| && 0 <= o < |p.outputs|
      && p.outputs[o].info.Some? && p.outputs[o].info.value.scan !in p.inputs[i].held.shares :: (i, o)
  }

  function EmptyScripts(p: Psbt): set<nat>
  { set o | 0 <= o < |p.outputs| && p.outputs[o].info.Some? && p.outputs[o].script == NO_SCRIPT }

  function UnsignedInputs(p: Psbt): set<nat>
  { set i | 0 <= i < |p.inputs| && !CarriesSignature(p.inputs[i].held) }

  /** What is still missing: shares, scripts and signatures. */
  function Missing(p: Psbt): nat
  { |MissingShares(p)| + |EmptyScripts(p)| + |UnsignedInputs(p)| }

  lemma NothingMissingTwice(e: Env, p: Psbt, q: Psbt)
    requires AllSharesOk(e, p) && AllSharesOk(e, q) && Within(p, q)
    requires MissingShares(p) == MissingShares(q) && EmptyScripts(p) == EmptyScripts(q)
    requires UnsignedInputs(p) == UnsignedInputs(q)
    ensures p == q
  {
    hide Skeleton, Dleq.Verify, InputKey;
    SkeletonParts(p, q);
    WithinGrows(p, q);
    PaysTheSame(p.outputs, q.outputs);
    forall i | 0 <= i < |p.inputs| ensures HeldWithin(q.inputs[i].held, p.inputs[i].held) {
      var mine, theirs := p.inputs[i].held, q.inputs[i].held;
      assert HeldWithin(mine, theirs);
      CheckedAreProofsPaired(e, p, i);
      CheckedAreProofsPaired(e, q, i);
      assert InputSharesOk(e, q.outputs, q.inputs[i].fact, theirs);
      forall scan | scan in theirs.shares ensures scan in mine.shares {
        assert ShareOk(e, q.outputs, InputKey(e, q.inputs[i].fact).value, theirs, scan);
        var o :| 0 <= o < |p.outputs| && p.outputs[o].info.Some? && p.outputs[o].info.value.scan == scan;
        assert (i, o) !in MissingShares(q);
      }
      if CarriesSignature(theirs) { assert i !in UnsignedInputs(q); }
    }
    forall o | 0 <= o < |p.outputs| ensures OutputWithin(q.outputs[o], p.outputs[o]) {
      assert OutputWithin(p.outputs[o], q.outputs[o]);
      if q.outputs[o].info.Some? && q.outputs[o].script != NO_SCRIPT { assert o !in EmptyScripts(q); }
    }
    WithinBothWays(p, q);
  }

  /** A larger state that is not the same misses strictly less. */
  lemma GrowingIsProgress(e: Env, p: Psbt, q: Psbt)
    requires AllSharesOk(e, p) && AllSharesOk(e, q) && Within(p, q) && p != q
    ensures Missing(q) < Missing(p)
  {
    SkeletonParts(p, q);
    WithinGrows(p, q);
    forall o | o in EmptyScripts(q) ensures o in EmptyScripts(p) { assert OutputWithin(p.outputs[o], q.outputs[o]); }
    forall i | i in UnsignedInputs(q)
      ensures i in UnsignedInputs(p)
    { assert HeldWithin(p.inputs[i].held, q.inputs[i].held); }
    SubsetSize(MissingShares(q), MissingShares(p));
    SubsetSize(EmptyScripts(q), EmptyScripts(p));
    SubsetSize(UnsignedInputs(q), UnsignedInputs(p));
    if Missing(q) >= Missing(p) { NothingMissingTwice(e, p, q); }
  }

  /** An absorption either changes nothing or leaves strictly less to collect. */
  lemma AbsorbIsProgress(e: Env, state: Psbt, incoming: Psbt, source: Source, mine: set<nat>)
    requires Sound(e, state) && Absorbed(e, state, incoming, source, mine).Ok?
    requires Absorbed(e, state, incoming, source, mine).value != state
    ensures Missing(Absorbed(e, state, incoming, source, mine).value) < Missing(state)
  {
    AbsorbKeepsSound(e, state, incoming, source, mine);
    AbsorbGrows(e, state, incoming, source, mine);
    GrowingIsProgress(e, state, Absorbed(e, state, incoming, source, mine).value);
  }
}
