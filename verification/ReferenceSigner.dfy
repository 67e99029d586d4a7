/** The reference signer the repository tests against: what it answers is an honest
  * answer, and when it answers at all. */
module ReferenceSigner {
  import opened Wrappers
  import opened Curve
  import opened Chain
  import opened Derive
  import opened PsbtV2
  import opened Shares
  import opened Absorb
  import opened Agreement
  import opened Soundness
  import opened SharedSession
  import opened HonestSigner
  import Dleq

  /** A seed, by the keys it leads to; the random numbers its proofs draw; and its
    * ECDSA signatures over (transaction, input, script, amount, key). */
  datatype Device = Device(
    holds: nat -> bool,
    nonce: (nat, nat) -> nat,
    ecdsa: (Transaction, nat, Script, nat, nat) -> nat,
    trim: bool
  )

  /** What one scan of a request produced. */
  datatype Outcome = Refused | Share(answer: Psbt) | Signed(answer: Psbt)

  // -------------------------------------------------------------------------
  // What it does

  /** A P2WPKH coin whose key this seed leads to. */
  predicate Owns(e: Env, d: Device, f: Spend)
  {
    && InputKey(e, f).Some? && f.utxo.value.script.P2wpkh?
    && d.holds(InputKey(e, f).value)
  }

  function ScanKeys(outputs: seq<Output>): set<nat>
  { set o | 0 <= o < |outputs| && outputs[o].info.Some? :: outputs[o].info.value.scan }

  /** Its own shares and proofs, over whatever arrived. */
  function OwnShares(e: Env, d: Device, outputs: seq<Output>, key: nat, held: Held): Held
  {
    held.(shares := map scan | scan in ScanKeys(outputs) :: e.curve.mul(key, scan),
          proofs := map scan | scan in ScanKeys(outputs) :: Dleq.Prove(e.curve, key, scan, d.nonce(key, scan)))
  }

  function SharedInput(e: Env, d: Device, outputs: seq<Output>, i: Input): Input
  { if Owns(e, d, i.fact) then i.(held := OwnShares(e, d, outputs, InputKey(e, i.fact).value, i.held)) else i }

  function WithShares(e: Env, d: Device, p: Psbt): Psbt
  { p.(inputs := MapSeq((i: Input) => SharedInput(e, d, p.outputs, i), p.inputs)) }

  /** A share and its proof together, or neither. */
  predicate ForeignOk(e: Env, scans: set<nat>, i: Input)
    requires InputKey(e, i.fact).Some?
  {
    forall scan :: scan in scans ==>
      && (scan in i.held.shares <==> scan in i.held.proofs)
      && (scan in i.held.shares ==>
            Dleq.Verify(e.curve, InputKey(e, i.fact).value, scan, i.held.shares[scan], i.held.proofs[scan]))
  }

  predicate ForeignComplete(scans: set<nat>, i: Input)
  { forall scan :: scan in scans ==> scan in i.held.shares }

  predicate Acceptable(e: Env, d: Device, p: Psbt)
  {
    && RecipientsOk(e.curve, p.outputs) && ScanKeys(p.outputs) != {}
    && AllKeyed(e, p.inputs)
    && (exists i :: 0 <= i < |p.inputs| && !Owns(e, d, p.inputs[i].fact))
    && !HasGlobalShare(p.global)
    && (forall i :: 0 <= i < |p.inputs| ==> SighashIsAll(p.inputs[i].fact))
    && (exists i :: 0 <= i < |p.inputs| && Owns(e, d, p.inputs[i].fact))
    && (forall i :: 0 <= i < |p.inputs| && !Owns(e, d, p.inputs[i].fact) ==>
          ForeignOk(e, ScanKeys(p.outputs), p.inputs[i]))
  }

  predicate LacksAShare(e: Env, d: Device, p: Psbt)
  {
    exists i :: 0 <= i < |p.inputs| && !Owns(e, d, p.inputs[i].fact)
      && !ForeignComplete(ScanKeys(p.outputs), p.inputs[i])
  }

  /** Every script can be derived, and is the one already there if there is one. */
  predicate ScriptsFit(e: Env, q: Psbt)
  {
    forall o :: 0 <= o < |q.outputs| && q.outputs[o].info.Some? ==>
      ScriptAt(e, q, o).Some? && (q.outputs[o].script == NO_SCRIPT || ScriptAt(e, q, o) == Some(q.outputs[o].script))
  }

  function Scripted(e: Env, q: Psbt): Psbt
    requires ScriptsFit(e, q)
  {
    q.(outputs := seq(|q.outputs|, o requires 0 <= o < |q.outputs| =>
      if q.outputs[o].info.Some? then q.outputs[o].(script := ScriptAt(e, q, o).value) else q.outputs[o]))
  }

  /** Its own idea of the transaction: no input asks for a lock time. */
  function Plainly(p: Psbt): Transaction
  {
    Transaction(p.global.version, FallbackLockTime(p.global),
                MapSeq((i: Input) => TxIn(i.fact.coin, SequenceOf(i.fact)), p.inputs),
                MapSeq((o: Output) => TxOut(o.amount, o.script), p.outputs))
  }

  function Signature(e: Env, d: Device, tx: Transaction, at: nat, f: Spend): PartialSig
    requires Owns(e, d, f)
  {
    var key := InputKey(e, f).value;
    PartialSig(PubKey(key, true),
               EcdsaSignature(d.ecdsa(tx, at, f.utxo.value.script, f.utxo.value.value, key), SIGHASH_ALL))
  }

  function SignedBy(e: Env, d: Device, p: Psbt): Psbt
  {
    p.(inputs := seq(|p.inputs|, i requires 0 <= i < |p.inputs| =>
      if Owns(e, d, p.inputs[i].fact)
      then p.inputs[i].(held := p.inputs[i].held.(partials := [Signature(e, d, Plainly(p), i, p.inputs[i].fact)]))
      else p.inputs[i]))
  }

  /** What goes back of one input when the signer trims its answer. */
  function TrimmedInput(e: Env, d: Device, i: Input): Input
  {
    if !d.trim then i else
    Input(i.fact.(utxo := None, previous := None, derivations := []),
          if Owns(e, d, i.fact) then i.held else i.held.(shares := map[], proofs := map[], partials := []))
  }

  function Trimmed(e: Env, d: Device, p: Psbt): Psbt
  { p.(inputs := MapSeq((i: Input) => TrimmedInput(e, d, i), p.inputs)) }

  function Answered(e: Env, d: Device, request: Psbt): Outcome
  {
    if !Acceptable(e, d, request) then Refused
    else
      var q := WithShares(e, d, request).(global := request.global.(flags := 0));
      if LacksAShare(e, d, request) then
        if exists o :: 0 <= o < |q.outputs| && q.outputs[o].info.Some? && q.outputs[o].script != NO_SCRIPT then Refused
        else Share(Trimmed(e, d, q))
      else if !ScriptsFit(e, q) then Refused
      else Signed(Trimmed(e, d, SignedBy(e, d, Scripted(e, q))))
  }

  // -------------------------------------------------------------------------
  // A device that works

  /** Its keys are keys, its proofs come out in range, and its signatures verify. */
  ghost predicate Works(e: Env, d: Device, p: Psbt)
  {
    && (forall i :: 0 <= i < |p.inputs| && Owns(e, d, p.inputs[i].fact) ==>
          forall scan :: scan in ScanKeys(p.outputs) ==> Proves(e, d, InputKey(e, p.inputs[i].fact).value, scan))
    && forall tx, at, script, amount, key :: d.holds(key) ==>
          e.ecdsa(tx, at, script, amount, key, d.ecdsa(tx, at, script, amount, key))
  }

  ghost predicate Proves(e: Env, d: Device, key: nat, scan: nat)
  {
    var k := d.nonce(key, scan);
    && IsSecret(e.curve, key) && IsSecret(e.curve, k)
    && IsSecret(e.curve, Dleq.Prove(e.curve, key, scan, k).challenge)
    && Dleq.Prove(e.curve, key, scan, k).response != 0
  }

  /** What BDK builds: no lock-time requests, and every ordinary output has a script. */
  ghost predicate Ordinary(p: Psbt)
  {
    && (forall i :: 0 <= i < |p.inputs| ==> !AsksLockTime(p.inputs[i]))
    && forall o :: 0 <= o < |p.outputs| && p.outputs[o].info.None? ==> p.outputs[o].script != NO_SCRIPT
  }

  ghost predicate OwnsExactly(e: Env, d: Device, p: Psbt, mine: set<nat>)
  { forall i :: 0 <= i < |p.inputs| ==> (Owns(e, d, p.inputs[i].fact) <==> i in mine) }

  ghost function Lone(e: Env, p: Psbt, o: nat): Option<Script>
    requires o < |p.outputs| && p.outputs[o].info.Some?
  {
    LoneSender(e.curve, Sum(e.curve, KeysOf(e, p.inputs)), CoinsOf(p.inputs),
               p.outputs[o].info.value.scan, p.outputs[o].info.value.spend, Rank(e.curve, p.outputs, o))
  }

  /** A lone sender with all the keys could pay every recipient. */
  ghost predicate Payable(e: Env, p: Psbt)
  { forall o :: 0 <= o < |p.outputs| && p.outputs[o].info.Some? ==> Lone(e, p, o).Some? }

  // -------------------------------------------------------------------------
  // Its shares

  ghost predicate TellsTheTruth(e: Env, i: Input)
  {
    && InputKey(e, i.fact).Some?
    && forall scan :: scan in i.held.shares ==> i.held.shares[scan] == e.curve.mul(InputKey(e, i.fact).value, scan)
  }

  lemma CheckedTellTheTruth(e: Env, p: Psbt)
    requires Dleq.Sound(e.curve) && AllSharesOk(e, p)
    ensures forall i :: 0 <= i < |p.inputs| ==> TellsTheTruth(e, p.inputs[i])
  {
    forall i | 0 <= i < |p.inputs| ensures TellsTheTruth(e, p.inputs[i]) {
      var fact, held := p.inputs[i].fact, p.inputs[i].held;
      assert InputSharesOk(e, p.outputs, fact, held);
      forall scan | scan in held.shares ensures held.shares[scan] == e.curve.mul(InputKey(e, fact).value, scan) {
        assert ShareOk(e, p.outputs, InputKey(e, fact).value, held, scan);
      }
    }
  }

  lemma OwnSharesPass(e: Env, d: Device, outputs: seq<Output>, f: Spend, held: Held)
    requires PrimeOrder(e.curve) && RecipientsOk(e.curve, outputs) && Owns(e, d, f)
    requires forall scan :: scan in ScanKeys(outputs) ==> Proves(e, d, InputKey(e, f).value, scan)
    ensures GivesShares(e, outputs, f, OwnShares(e, d, outputs, InputKey(e, f).value, held))
  {
    hide PrimeOrder, Dleq.Verify, Dleq.Prove;
    var key := InputKey(e, f).value;
    var own := OwnShares(e, d, outputs, key, held);
    forall scan | scan in own.shares ensures ShareOk(e, outputs, key, own, scan) {
      assert Proves(e, d, key, scan);
      assert IsPoint(e.curve, scan) && PaysScan(outputs, scan);
      Dleq.HonestProofVerifies(e.curve, key, scan, d.nonce(key, scan));
    }
  }

  /** With truthful shares from every input the script is the lone sender's. */
  lemma TruthfulScript(e: Env, p: Psbt, q: Psbt, o: nat)
    requires PrimeOrder(e.curve) && RecipientsOk(e.curve, p.outputs) && SameCoinsAndPayees(p, q)
    requires Completed(q, o) && forall i :: 0 <= i < |q.inputs| ==> TellsTheTruth(e, q.inputs[i])
    ensures o < |p.outputs| && p.outputs[o].info.Some? && ScriptAt(e, q, o) == Lone(e, p, o)
  {
    hide PrimeOrder, ScriptAt, LoneSender, InputKey;
    assert HonestShares(e, q, o) by {
      forall i | 0 <= i < |q.inputs|
        ensures InputKey(e, q.inputs[i].fact).Some?
      { assert TellsTheTruth(e, q.inputs[i]); }
    }
    SharedScriptIsTheLoneSenders(e, q, o);
    SameRank(e.curve, p.outputs, q.outputs, o);
    assert KeysOf(e, p.inputs) == KeysOf(e, q.inputs) && CoinsOf(p.inputs) == CoinsOf(q.inputs);
  }

  ghost predicate SameCoinsAndPayees(p: Psbt, q: Psbt)
  {
    && |p.inputs| == |q.inputs| && |p.outputs| == |q.outputs|
    && (forall i :: 0 <= i < |p.inputs| ==> p.inputs[i].fact == q.inputs[i].fact)
    && (forall o :: 0 <= o < |p.outputs| ==> p.outputs[o].info == q.outputs[o].info)
  }

  // -------------------------------------------------------------------------
  // What it makes of a request

  /** The request with this signer's own shares in it. */
  function Working(e: Env, d: Device, p: Psbt, mine: set<nat>): Psbt
  {
    var request := SignerRequest(p, mine);
    WithShares(e, d, request).(global := request.global.(flags := 0))
  }

  lemma WorkingInput(e: Env, d: Device, p: Psbt, mine: set<nat>, i: nat)
    requires OwnsExactly(e, d, p, mine) && i < |p.inputs|
    ensures var q := Working(e, d, p, mine);
      && |q.inputs| == |p.inputs| && q.outputs == p.outputs && q.inputs[i].fact == p.inputs[i].fact
      && (i in mine ==>
            && Owns(e, d, p.inputs[i].fact)
            && q.inputs[i].held == OwnShares(e, d, p.outputs, InputKey(e, p.inputs[i].fact).value, p.inputs[i].held)
            && q.inputs[i].held.tap == p.inputs[i].held.tap)
      && (i !in mine ==> q.inputs[i].held == p.inputs[i].held.(partials := [], tap := None))
  { hide InputKey; }

  lemma WorkingTellsTheTruth(e: Env, d: Device, p: Psbt, mine: set<nat>)
    requires Sound(e, p) && Dleq.Sound(e.curve) && OwnsExactly(e, d, p, mine)
    ensures var q := Working(e, d, p, mine);
      SameCoinsAndPayees(p, q) && forall i :: 0 <= i < |q.inputs| ==> TellsTheTruth(e, q.inputs[i])
  {
    hide Working, Sound, Dleq.Sound, AllSharesOk, InputKey;
    SoundParts(e, p);
    CheckedTellTheTruth(e, p);
    var q := Working(e, d, p, mine);
    assert |q.inputs| == |p.inputs| && q.outputs == p.outputs by { WorkingSizes(e, d, p, mine); }
    forall i | 0 <= i < |q.inputs| ensures q.inputs[i].fact == p.inputs[i].fact && TellsTheTruth(e, q.inputs[i]) {
      WorkingInput(e, d, p, mine, i);
      assert TellsTheTruth(e, p.inputs[i]);
    }
  }

  lemma WorkingSizes(e: Env, d: Device, p: Psbt, mine: set<nat>)
    ensures var q := Working(e, d, p, mine);
      && |q.inputs| == |p.inputs| && q.outputs == p.outputs
      && q.global == p.global.(flags := 0)
  { }

  lemma SoundParts(e: Env, p: Psbt)
    requires Sound(e, p)
    ensures AllSharesOk(e, p) && RecipientsOk(e.curve, p.outputs) && p.global.flags == 0 && !HasGlobalShare(p.global)
    ensures forall i :: 0 <= i < |p.inputs| ==> CheckInput(e, p.inputs[i].fact)
    ensures ScriptsSound(e, p) && SignaturesSound(e, p)
  { }

  ghost predicate MissesOne(outputs: seq<Output>, held: Held)
  { exists o :: 0 <= o < |outputs| && outputs[o].info.Some? && outputs[o].info.value.scan !in held.shares }

  lemma IncompleteMeans(outputs: seq<Output>, i: Input)
    ensures !ForeignComplete(ScanKeys(outputs), i) <==> MissesOne(outputs, i.held)
  {
    if o :| 0 <= o < |outputs| && outputs[o].info.Some? && outputs[o].info.value.scan !in i.held.shares {
      assert outputs[o].info.value.scan in ScanKeys(outputs);
    }
  }

  lemma WaitingMeans(p: Psbt, mine: set<nat>)
    ensures Waiting(p, mine) <==>
      exists i :: 0 <= i < |p.inputs| && i !in mine && MissesOne(p.outputs, p.inputs[i].held)
  { }

  /** The signer lacks a share exactly when the session says it is waiting for one. */
  lemma LacksIsWaiting(e: Env, d: Device, p: Psbt, mine: set<nat>)
    requires OwnsExactly(e, d, p, mine)
    ensures LacksAShare(e, d, SignerRequest(p, mine)) <==> Waiting(p, mine)
  {
    hide Owns, ForeignComplete, ScanKeys, MissesOne, Waiting;
    WaitingMeans(p, mine);
    var request := SignerRequest(p, mine);
    forall i | 0 <= i < |p.inputs|
      ensures request.inputs[i].fact == p.inputs[i].fact
      ensures i !in mine ==>
        (!ForeignComplete(ScanKeys(request.outputs), request.inputs[i]) <==> MissesOne(p.outputs, p.inputs[i].held))
    {
      IncompleteMeans(p.outputs, request.inputs[i]);
      assert MissesOne(p.outputs, request.inputs[i].held) <==> MissesOne(p.outputs, p.inputs[i].held) by {
        SameSharesMiss(p.outputs, request.inputs[i].held, p.inputs[i].held);
      }
    }
  }

  lemma SameSharesMiss(outputs: seq<Output>, left: Held, right: Held)
    requires left.shares == right.shares
    ensures MissesOne(outputs, left) <==> MissesOne(outputs, right)
  { }

  /** A sound state with an input on either side is a request it looks at. */
  lemma SoundIsAcceptable(e: Env, d: Device, p: Psbt, mine: set<nat>)
    requires Sound(e, p) && OwnsExactly(e, d, p, mine) && OneScan(p.outputs)
    requires (exists i :: 0 <= i < |p.inputs| && i in mine) && (exists i :: 0 <= i < |p.inputs| && i !in mine)
    ensures Acceptable(e, d, SignerRequest(p, mine))
  {
    hide Sound, InputKey, Owns, ForeignOk, AllSharesOk, CheckInput, OneScan;
    SoundParts(e, p);
    ScanKeyExists(p.outputs);
    var request := SignerRequest(p, mine);
    var a :| 0 <= a < |p.inputs| && a in mine;
    var b :| 0 <= b < |p.inputs| && b !in mine;
    RequestInput(e, p, mine, a);
    RequestInput(e, p, mine, b);
    assert Owns(e, d, request.inputs[a].fact) && !Owns(e, d, request.inputs[b].fact);
    forall i | 0 <= i < |p.inputs|
      ensures InputKey(e, request.inputs[i].fact).Some? && SighashIsAll(request.inputs[i].fact)
      ensures ForeignOk(e, ScanKeys(request.outputs), request.inputs[i])
    { RequestInput(e, p, mine, i); }
  }

  lemma ScanKeyExists(outputs: seq<Output>)
    requires OneScan(outputs)
    ensures ScanKeys(outputs) != {}
  {
    var o :| 0 <= o < |outputs| && outputs[o].info.Some?;
    assert outputs[o].info.value.scan in ScanKeys(outputs);
  }

  lemma RequestInput(e: Env, p: Psbt, mine: set<nat>, i: nat)
    requires Sound(e, p) && i < |p.inputs|
    ensures var request := SignerRequest(p, mine);
      && request.inputs[i].fact == p.inputs[i].fact
      && InputKey(e, p.inputs[i].fact).Some? && SighashIsAll(p.inputs[i].fact)
      && ForeignOk(e, ScanKeys(request.outputs), request.inputs[i])
  {
    hide Sound, InputKey, Dleq.Verify, ForeignOk, CheckInput;
    SoundInput(e, p, i);
    CheckedIsForeignOk(e, p.outputs, SignerRequest(p, mine).inputs[i]);
  }

  lemma SoundInput(e: Env, p: Psbt, i: nat)
    requires Sound(e, p) && i < |p.inputs|
    ensures CheckInput(e, p.inputs[i].fact) && InputSharesOk(e, p.outputs, p.inputs[i].fact, p.inputs[i].held)
    ensures InputKey(e, p.inputs[i].fact).Some? && SighashIsAll(p.inputs[i].fact)
  { }

  lemma CheckedIsForeignOk(e: Env, outputs: seq<Output>, i: Input)
    requires InputSharesOk(e, outputs, i.fact, i.held)
    ensures ForeignOk(e, ScanKeys(outputs), i)
  {
    hide Dleq.Verify, InputKey, PaysScan;
    forall scan | scan in i.held.shares ensures ShareOk(e, outputs, InputKey(e, i.fact).value, i.held, scan) { }
  }

  /** Once nobody's share is missing, every output's script is the lone sender's. */
  lemma WorkingScripts(e: Env, d: Device, p: Psbt, mine: set<nat>, o: nat)
    requires Sound(e, p) && Dleq.Sound(e.curve) && PrimeOrder(e.curve) && OwnsExactly(e, d, p, mine)
    requires !Waiting(p, mine) && o < |p.outputs| && p.outputs[o].info.Some?
    ensures var q := Working(e, d, p, mine);
      && |q.outputs| == |p.outputs| && q.outputs[o] == p.outputs[o]
      && ScriptAt(e, q, o) == Lone(e, p, o)
      && (p.outputs[o].script == NO_SCRIPT || Some(p.outputs[o].script) == Lone(e, p, o))
  {
    hide Working, Sound, Dleq.Sound, PrimeOrder, ScriptAt, Lone, TellsTheTruth, AllSharesOk;
    SoundParts(e, p);
    var q, scan := Working(e, d, p, mine), p.outputs[o].info.value.scan;
    WorkingSizes(e, d, p, mine);
    WorkingTellsTheTruth(e, d, p, mine);
    forall i | 0 <= i < |q.inputs| ensures scan in q.inputs[i].held.shares {
      WorkingInput(e, d, p, mine, i);
      assert i in mine ==> scan in ScanKeys(p.outputs);
    }
    TruthfulScript(e, p, q, o);
    if p.outputs[o].script != NO_SCRIPT {
      CheckedTellTheTruth(e, p);
      TruthfulScript(e, p, p, o);
    }
  }

  /** It refuses a sound state of a shared send only if nobody could pay it. */
  lemma AnswersExactlyIfPayable(e: Env, d: Device, p: Psbt, mine: set<nat>)
    requires Sound(e, p) && Dleq.Sound(e.curve) && PrimeOrder(e.curve) && OwnsExactly(e, d, p, mine)
    requires OneScan(p.outputs)
    requires (exists i :: 0 <= i < |p.inputs| && i in mine) && (exists i :: 0 <= i < |p.inputs| && i !in mine)
    ensures var outcome := Answered(e, d, SignerRequest(p, mine));
      && (outcome.Share? <==> Waiting(p, mine))
      && (outcome.Signed? <==> !Waiting(p, mine) && Payable(e, p))
  {
    hide Sound, Dleq.Sound, PrimeOrder, ScriptAt, Lone, Waiting, Acceptable, LacksAShare, OneScan;
    SoundIsAcceptable(e, d, p, mine);
    LacksIsWaiting(e, d, p, mine);
    if Waiting(p, mine) {
      NoScriptWhileWaiting(e, p, mine);
    } else {
      forall o | 0 <= o < |p.outputs| && p.outputs[o].info.Some?
        ensures var q := Working(e, d, p, mine);
          ScriptAt(e, q, o) == Lone(e, p, o)
          && (p.outputs[o].script == NO_SCRIPT || Some(p.outputs[o].script) == Lone(e, p, o))
      { WorkingScripts(e, d, p, mine, o); }
    }
  }

  lemma NoScriptWhileWaiting(e: Env, p: Psbt, mine: set<nat>)
    requires Sound(e, p) && OneScan(p.outputs) && Waiting(p, mine)
    ensures forall o :: 0 <= o < |p.outputs| && p.outputs[o].info.Some? ==> p.outputs[o].script == NO_SCRIPT
  {
    hide ScriptAt;
    SoundParts(e, p);
    var i, j :| 0 <= i < |p.inputs| && 0 <= j < |p.outputs| && i !in mine
      && p.outputs[j].info.Some? && p.outputs[j].info.value.scan !in p.inputs[i].held.shares;
    forall o | 0 <= o < |p.outputs| && p.outputs[o].info.Some? ensures p.outputs[o].script == NO_SCRIPT {
      assert !Completed(p, o);
    }
  }

  // -------------------------------------------------------------------------
  // Its answer is honest

  /** What the finished answer looks like before trimming. */
  function Finished(e: Env, d: Device, q: Psbt): Psbt
    requires ScriptsFit(e, q)
  { SignedBy(e, d, Scripted(e, q)) }

  ghost predicate Keeps(before: Input, after: Input)
  {
    && SameSpend(before.fact, after.fact) && before.fact.sighash == after.fact.sighash
    && after.held.tap == before.held.tap
  }

  lemma TrimKeeps(e: Env, d: Device, i: Input)
    ensures Keeps(i, TrimmedInput(e, d, i))
    ensures Owns(e, d, i.fact) ==> TrimmedInput(e, d, i).held == i.held
    ensures !Owns(e, d, i.fact) ==> SameOrNothing(i.held, TrimmedInput(e, d, i).held)
  { hide Owns; }

  ghost predicate SameOrNothing(before: Held, after: Held)
  { after == before || after == before.(shares := map[], proofs := map[], partials := []) }

  /** A share-only answer. */
  lemma ShareIsHonest(e: Env, d: Device, p: Psbt, mine: set<nat>)
    requires Sound(e, p) && PrimeOrder(e.curve) && OwnsExactly(e, d, p, mine) && Works(e, d, p) && OneScan(p.outputs)
    requires Waiting(p, mine)
    ensures HonestAnswer(e, p, mine, Trimmed(e, d, Working(e, d, p, mine)))
  {
    hide Sound, PrimeOrder, Owns, OwnShares, OneScan, Waiting, TrimmedInput, GivesShares, Proves, Working, InputKey;
    SoundParts(e, p);
    WorkingSizes(e, d, p, mine);
    NoScriptWhileWaiting(e, p, mine);
    NobodySignedWhileWaiting(e, p, mine);
    var q := Working(e, d, p, mine);
    var answer := Trimmed(e, d, q);
    forall i | 0 <= i < |p.inputs|
      ensures SameSpend(p.inputs[i].fact, answer.inputs[i].fact) && SighashIsAll(answer.inputs[i].fact)
      ensures !CarriesSignature(answer.inputs[i].held)
      ensures i in mine ==> GivesShares(e, p.outputs, p.inputs[i].fact, answer.inputs[i].held)
      ensures i !in mine ==> LeavesAlone(p.inputs[i].held, answer.inputs[i].held)
    {
      AnsweredInput(e, d, p, mine, i);
    }
  }

  lemma NobodySignedWhileWaiting(e: Env, p: Psbt, mine: set<nat>)
    requires Sound(e, p) && OneScan(p.outputs) && Waiting(p, mine)
    ensures forall i :: 0 <= i < |p.inputs| ==> !CarriesSignature(p.inputs[i].held)
  {
    hide Sound, ScriptsSound, AllSharesOk, SignatureVerifies, CheckInput;
    SoundParts(e, p);
    NoScriptWhileWaiting(e, p, mine);
    var o :| 0 <= o < |p.outputs| && p.outputs[o].info.Some?;
    assert UnsignedTransaction(p).Err?;
  }

  lemma AnsweredInput(e: Env, d: Device, p: Psbt, mine: set<nat>, i: nat)
    requires Sound(e, p) && PrimeOrder(e.curve) && OwnsExactly(e, d, p, mine) && Works(e, d, p) && i < |p.inputs|
    requires i in mine ==> !CarriesSignature(p.inputs[i].held)
    ensures |Working(e, d, p, mine).inputs| == |p.inputs|
    ensures var after := TrimmedInput(e, d, Working(e, d, p, mine).inputs[i]);
      && SameSpend(p.inputs[i].fact, after.fact) && SighashIsAll(after.fact)
      && !CarriesSignature(after.held)
      && (i in mine ==> GivesShares(e, p.outputs, p.inputs[i].fact, after.held))
      && (i !in mine ==> LeavesAlone(p.inputs[i].held, after.held))
  {
    hide Sound, PrimeOrder, Owns, TrimmedInput, GivesShares, Proves, Working, InputKey, CheckInput;
    SoundParts(e, p);
    SoundInput(e, p, i);
    WorkingInput(e, d, p, mine, i);
    var before := Working(e, d, p, mine).inputs[i];
    TrimKeeps(e, d, before);
    if i in mine { OwnSharesPass(e, d, p.outputs, p.inputs[i].fact, p.inputs[i].held); }
  }

  lemma SameSharesGiven(e: Env, outputs: seq<Output>, f: Spend, held: Held, same: Held)
    requires GivesShares(e, outputs, f, held) && same.shares == held.shares && same.proofs == held.proofs
    ensures GivesShares(e, outputs, f, same)
  {
    hide Dleq.Verify, InputKey, PaysScan;
    forall scan | scan in same.shares ensures ShareOk(e, outputs, InputKey(e, f).value, same, scan) {
      assert ShareOk(e, outputs, InputKey(e, f).value, held, scan);
    }
  }

  /** The state this signer works on once it has every share. */
  ghost predicate HoldsAll(e: Env, d: Device, p: Psbt, mine: set<nat>)
  {
    && Sound(e, p) && PrimeOrder(e.curve) && Dleq.Sound(e.curve) && OwnsExactly(e, d, p, mine) && Works(e, d, p)
    && !Waiting(p, mine) && Payable(e, p)
  }

  lemma WorkingFits(e: Env, d: Device, p: Psbt, mine: set<nat>)
    requires HoldsAll(e, d, p, mine)
    ensures ScriptsFit(e, Working(e, d, p, mine))
    ensures var f := Scripted(e, Working(e, d, p, mine));
      && f.global == p.global.(flags := 0) && |f.inputs| == |p.inputs| && |f.outputs| == |p.outputs|
      && f.inputs == Working(e, d, p, mine).inputs
      && forall o :: 0 <= o < |p.outputs| ==>
        f.outputs[o] == if p.outputs[o].info.Some? then p.outputs[o].(script := Lone(e, p, o).value) else p.outputs[o]
  {
    hide Sound, Dleq.Sound, PrimeOrder, ScriptAt, Lone, Waiting, Working, Works;
    WorkingSizes(e, d, p, mine);
    forall o | 0 <= o < |p.outputs| && p.outputs[o].info.Some?
      ensures var q := Working(e, d, p, mine);
        ScriptAt(e, q, o) == Lone(e, p, o)
        && (p.outputs[o].script == NO_SCRIPT || Some(p.outputs[o].script) == Lone(e, p, o))
    { WorkingScripts(e, d, p, mine, o); }
  }

  /** The finished answer, input by input. */
  lemma FinishedInput(e: Env, d: Device, p: Psbt, mine: set<nat>, i: nat)
    requires HoldsAll(e, d, p, mine) && i < |p.inputs|
    ensures ScriptsFit(e, Working(e, d, p, mine))
    ensures var f := Scripted(e, Working(e, d, p, mine));
      && |Trimmed(e, d, SignedBy(e, d, f)).inputs| == |p.inputs|
      && var after := Trimmed(e, d, SignedBy(e, d, f)).inputs[i];
      && SameSpend(p.inputs[i].fact, after.fact) && SighashIsAll(after.fact)
      && (i in mine ==>
            && GivesShares(e, p.outputs, p.inputs[i].fact, after.held)
            && Owns(e, d, p.inputs[i].fact)
            && after.held.partials == [Signature(e, d, Plainly(f), i, p.inputs[i].fact)]
            && after.held.tap == p.inputs[i].held.tap)
      && (i !in mine ==> LeavesAlone(p.inputs[i].held, after.held))
  {
    hide Sound, PrimeOrder, Dleq.Sound, Owns, TrimmedInput, GivesShares, Proves, Working, InputKey, CheckInput,
         Plainly, Signature,
      OwnShares, Waiting, Payable, ScriptAt, ScriptsFit, Scripted;
    WorkingFits(e, d, p, mine);
    SoundParts(e, p);
    SoundInput(e, p, i);
    WorkingInput(e, d, p, mine, i);
    var f := Scripted(e, Working(e, d, p, mine));
    var before := SignedBy(e, d, f).inputs[i];
    TrimKeeps(e, d, before);
    if i in mine {
      var key := InputKey(e, p.inputs[i].fact).value;
      OwnSharesPass(e, d, p.outputs, p.inputs[i].fact, p.inputs[i].held);
      SameSharesGiven(e, p.outputs, p.inputs[i].fact, OwnShares(e, d, p.outputs, key, p.inputs[i].held), before.held);
    }
  }

  /** The whole answer of a signer that has every share. */
  function FullAnswer(e: Env, d: Device, p: Psbt, mine: set<nat>): Psbt
    requires ScriptsFit(e, Working(e, d, p, mine))
  { Trimmed(e, d, Finished(e, d, Working(e, d, p, mine))) }

  lemma FullAnswerParts(e: Env, d: Device, p: Psbt, mine: set<nat>)
    requires HoldsAll(e, d, p, mine)
    ensures ScriptsFit(e, Working(e, d, p, mine))
    ensures var answer := FullAnswer(e, d, p, mine);
      && answer.global == p.global && |answer.inputs| == |p.inputs| && |answer.outputs| == |p.outputs|
      && !HasGlobalShare(answer.global) && answer.global.flags == 0
      && forall o :: 0 <= o < |p.outputs| ==>
        answer.outputs[o] ==
          if p.outputs[o].info.Some? then p.outputs[o].(script := Lone(e, p, o).value) else p.outputs[o]
  {
    hide Sound, PrimeOrder, Dleq.Sound, Waiting, Payable, Works, Working, ScriptsFit, Scripted, Lone, Owns;
    WorkingFits(e, d, p, mine);
    SoundParts(e, p);
  }

  lemma FullAnswerSkeleton(e: Env, d: Device, p: Psbt, mine: set<nat>)
    requires HoldsAll(e, d, p, mine)
    ensures ScriptsFit(e, Working(e, d, p, mine)) && SameSkeleton(p, FullAnswer(e, d, p, mine))
  {
    hide Sound, PrimeOrder, Dleq.Sound, Waiting, Payable, Works, Working, ScriptsFit, Lone, HoldsAll, FullAnswer,
         SameSpend;
    FullAnswerParts(e, d, p, mine);
    var answer := FullAnswer(e, d, p, mine);
    forall i | 0 <= i < |p.inputs| ensures SameSpend(p.inputs[i].fact, answer.inputs[i].fact) {
      FullAnswerInput(e, d, p, mine, i);
    }
    forall o | 0 <= o < |p.outputs| ensures SamePayment(p.outputs[o], answer.outputs[o]) {
      if p.outputs[o].info.Some? { OldScriptIsLone(e, d, p, mine, o); }
    }
  }

  lemma OldScriptIsLone(e: Env, d: Device, p: Psbt, mine: set<nat>, o: nat)
    requires HoldsAll(e, d, p, mine) && o < |p.outputs| && p.outputs[o].info.Some?
    ensures Lone(e, p, o).Some? && (p.outputs[o].script == NO_SCRIPT || Some(p.outputs[o].script) == Lone(e, p, o))
  {
    hide Sound, PrimeOrder, Dleq.Sound, Waiting, Works, Working, Lone;
    WorkingScripts(e, d, p, mine, o);
  }

  lemma FullAnswerInput(e: Env, d: Device, p: Psbt, mine: set<nat>, i: nat)
    requires HoldsAll(e, d, p, mine) && i < |p.inputs|
    ensures ScriptsFit(e, Working(e, d, p, mine)) && |FullAnswer(e, d, p, mine).inputs| == |p.inputs|
    ensures var after := FullAnswer(e, d, p, mine).inputs[i];
      && SameSpend(p.inputs[i].fact, after.fact) && SighashIsAll(after.fact)
      && (i in mine ==>
            && GivesShares(e, p.outputs, p.inputs[i].fact, after.held)
            && Owns(e, d, p.inputs[i].fact)
            && after.held.partials ==
                 [Signature(e, d, Plainly(Scripted(e, Working(e, d, p, mine))), i, p.inputs[i].fact)]
            && after.held.tap == p.inputs[i].held.tap)
      && (i !in mine ==> LeavesAlone(p.inputs[i].held, after.held))
  {
    hide HoldsAll, Working, ScriptsFit, GivesShares, Owns, Trimmed, SignedBy, Scripted, Signature, Plainly,
         LeavesAlone, SameSpend, SighashIsAll;
    FinishedInput(e, d, p, mine, i);
  }

  /** With the answer merged in, every share is there and truthful. */
  lemma MergedTellsTheTruth(e: Env, d: Device, p: Psbt, mine: set<nat>)
    requires HoldsAll(e, d, p, mine)
    ensures ScriptsFit(e, Working(e, d, p, mine)) && |FullAnswer(e, d, p, mine).inputs| == |p.inputs|
    ensures var merged := Merge(p, FullAnswer(e, d, p, mine));
      && SameCoinsAndPayees(p, merged) && merged.outputs == p.outputs
      && (forall i :: 0 <= i < |p.inputs| ==> TellsTheTruth(e, merged.inputs[i]))
      && forall o :: 0 <= o < |p.outputs| && p.outputs[o].info.Some? ==> Completed(merged, o)
  {
    hide HoldsAll, Working, ScriptsFit, FullAnswer, TellsTheTruth, Completed;
    WorkingFits(e, d, p, mine);
    FullAnswerParts(e, d, p, mine);
    var answer := FullAnswer(e, d, p, mine);
    forall i | 0 <= i < |p.inputs| ensures TellsTheTruth(e, Merge(p, answer).inputs[i]) {
      MergedInputTellsTheTruth(e, d, p, mine, i);
    }
    forall o | 0 <= o < |p.outputs| && p.outputs[o].info.Some? ensures Completed(Merge(p, answer), o) {
      MergedIsComplete(e, d, p, mine, o);
    }
  }

  lemma MergedInputTellsTheTruth(e: Env, d: Device, p: Psbt, mine: set<nat>, i: nat)
    requires HoldsAll(e, d, p, mine) && i < |p.inputs|
    ensures ScriptsFit(e, Working(e, d, p, mine)) && |FullAnswer(e, d, p, mine).inputs| == |p.inputs|
    ensures TellsTheTruth(e, Merge(p, FullAnswer(e, d, p, mine)).inputs[i])
  {
    hide Working, ScriptsFit, FullAnswer, Sound, PrimeOrder, AllSharesOk, InputSharesOk, Works, Payable, Dleq.Verify,
         Signature, Owns, Waiting;
    FullAnswerInput(e, d, p, mine, i);
    SoundParts(e, p);
    SoundInput(e, p, i);
    var fact, held := p.inputs[i].fact, FullAnswer(e, d, p, mine).inputs[i].held;
    CheckedShares(e, p.outputs, fact, p.inputs[i].held);
    if i in mine { CheckedShares(e, p.outputs, fact, held); }
  }

  lemma CheckedShares(e: Env, outputs: seq<Output>, fact: Spend, held: Held)
    requires Dleq.Sound(e.curve) && InputSharesOk(e, outputs, fact, held)
    ensures InputKey(e, fact).Some?
    ensures forall scan :: scan in held.shares ==> held.shares[scan] == e.curve.mul(InputKey(e, fact).value, scan)
  {
    forall scan | scan in held.shares ensures held.shares[scan] == e.curve.mul(InputKey(e, fact).value, scan) {
      assert ShareOk(e, outputs, InputKey(e, fact).value, held, scan);
    }
  }

  lemma MergedIsComplete(e: Env, d: Device, p: Psbt, mine: set<nat>, o: nat)
    requires HoldsAll(e, d, p, mine) && o < |p.outputs| && p.outputs[o].info.Some?
    ensures ScriptsFit(e, Working(e, d, p, mine)) && |FullAnswer(e, d, p, mine).inputs| == |p.inputs|
    ensures Completed(Merge(p, FullAnswer(e, d, p, mine)), o)
  {
    hide Working, ScriptsFit, FullAnswer, Sound, PrimeOrder, InputSharesOk, Works, Payable, Dleq.Sound, Signature, Owns;
    WorkingFits(e, d, p, mine);
    FullAnswerParts(e, d, p, mine);
    var scan, merged := p.outputs[o].info.value.scan, Merge(p, FullAnswer(e, d, p, mine));
    forall i | 0 <= i < |merged.inputs| ensures scan in merged.inputs[i].held.shares {
      FullAnswerInput(e, d, p, mine, i);
      assert merged.inputs[i].held == MergeHeld(p.inputs[i].held, FullAnswer(e, d, p, mine).inputs[i].held);
    }
  }

  /** The coordinator fills in the very scripts this signer derived. */
  lemma FillsTheSame(e: Env, d: Device, p: Psbt, mine: set<nat>)
    requires HoldsAll(e, d, p, mine)
    ensures ScriptsFit(e, Working(e, d, p, mine)) && |FullAnswer(e, d, p, mine).inputs| == |p.inputs|
    ensures var merged := Merge(p, FullAnswer(e, d, p, mine));
      && Derivable(e, merged)
      && (forall o :: 0 <= o < |p.outputs| && p.outputs[o].info.Some? ==> ScriptAt(e, merged, o) == Lone(e, p, o))
      && Fill(e, merged).outputs == Scripted(e, Working(e, d, p, mine)).outputs
  {
    hide Working, ScriptsFit, Scripted, FullAnswer, Sound, Works, Dleq.Sound, PrimeOrder, TellsTheTruth, Lone,
         Completed, ScriptAt, Waiting, Merge;
    MergedTellsTheTruth(e, d, p, mine);
    WorkingFits(e, d, p, mine);
    SoundParts(e, p);
    var merged := Merge(p, FullAnswer(e, d, p, mine));
    forall o | 0 <= o < |p.outputs| && p.outputs[o].info.Some?
      ensures Completed(merged, o) && ScriptAt(e, merged, o) == Lone(e, p, o)
      ensures Lone(e, p, o).Some? && (p.outputs[o].script == NO_SCRIPT || Some(p.outputs[o].script) == Lone(e, p, o))
    {
      TruthfulScript(e, p, merged, o);
      OldScriptIsLone(e, d, p, mine, o);
    }
    AllDerivable(e, merged);
    var f := Scripted(e, Working(e, d, p, mine));
    forall o | 0 <= o < |p.outputs| ensures FilledOutput(e, merged, o) == f.outputs[o] {
      if p.outputs[o].info.None? { NoInfoNoScript(merged, o); }
    }
  }

  lemma NoInfoNoScript(p: Psbt, o: nat)
    requires o < |p.outputs| && p.outputs[o].info.None?
    ensures !Completed(p, o)
  { }

  lemma AllDerivable(e: Env, p: Psbt)
    requires forall o :: 0 <= o < |p.outputs| && p.outputs[o].info.Some? ==> ScriptAt(e, p, o).Some?
    ensures Derivable(e, p)
  { }

  /** And so builds the very transaction this signer signed. */
  lemma BuildsTheSame(e: Env, d: Device, p: Psbt, mine: set<nat>)
    requires HoldsAll(e, d, p, mine) && Ordinary(p)
    ensures ScriptsFit(e, Working(e, d, p, mine)) && |FullAnswer(e, d, p, mine).inputs| == |p.inputs|
    ensures var merged := Merge(p, FullAnswer(e, d, p, mine));
      && Derivable(e, merged)
      && UnsignedTransaction(Fill(e, merged)) == Ok(Plainly(Scripted(e, Working(e, d, p, mine))))
  {
    hide Working, ScriptsFit, Scripted, FullAnswer, Works, Dleq.Sound, PrimeOrder, Lone, Completed, ScriptAt, Waiting,
         Derivable,
      FilledOutput, CheckInput, AllSharesOk;
    FillsTheSame(e, d, p, mine);
    WorkingFits(e, d, p, mine);
    var f, filled := Scripted(e, Working(e, d, p, mine)), Fill(e, Merge(p, FullAnswer(e, d, p, mine)));
    forall i | 0 <= i < |p.inputs|
      ensures filled.inputs[i].fact == p.inputs[i].fact == f.inputs[i].fact && p.inputs[i].fact.sequence.Some?
    {
      WorkingInput(e, d, p, mine, i);
      SequenceIsThere(e, p, i);
    }
    forall o | 0 <= o < |p.outputs| ensures f.outputs[o].script != NO_SCRIPT {
      if p.outputs[o].info.Some? { LoneIsTaproot(e, p, o); }
    }
    PlainTransaction(filled, f);
  }

  lemma SequenceIsThere(e: Env, p: Psbt, i: nat)
    requires Sound(e, p) && i < |p.inputs|
    ensures p.inputs[i].fact.sequence.Some?
  { SoundInput(e, p, i); }

  lemma LoneIsTaproot(e: Env, p: Psbt, o: nat)
    requires o < |p.outputs| && p.outputs[o].info.Some? && Lone(e, p, o).Some?
    ensures Lone(e, p, o).value.P2tr?
  { }

  lemma PlainTransaction(p: Psbt, q: Psbt)
    requires p.outputs == q.outputs && |p.inputs| == |q.inputs|
    requires p.global.version == q.global.version && p.global.fallback == q.global.fallback
    requires forall i :: 0 <= i < |p.inputs| ==>
      p.inputs[i].fact == q.inputs[i].fact && p.inputs[i].fact.sequence.Some? && !AsksLockTime(p.inputs[i])
    requires forall o :: 0 <= o < |p.outputs| ==> p.outputs[o].script != NO_SCRIPT
    ensures UnsignedTransaction(p) == Ok(Plainly(q))
  {
    assert MapSeq((i: Input) => TxIn(i.fact.coin, SequenceOf(i.fact)), p.inputs)
        == MapSeq((i: Input) => TxIn(i.fact.coin, SequenceOf(i.fact)), q.inputs);
  }

  /** Its signature passes the coordinator's check. */
  lemma SignatureHolds(e: Env, d: Device, inputs: seq<Input>, tx: Transaction, i: nat)
    requires i < |inputs| && Owns(e, d, inputs[i].fact) && inputs[i].held.tap.None?
    requires inputs[i].held.partials == [Signature(e, d, tx, i, inputs[i].fact)]
    requires forall tx, at, script, amount, key :: d.holds(key) ==>
      e.ecdsa(tx, at, script, amount, key, d.ecdsa(tx, at, script, amount, key))
    ensures SignatureVerifies(e, inputs, tx, i) == Ok(true)
  { }

  /** A P2WPKH input of a sound state carries no taproot signature. */
  lemma NoTapSignature(e: Env, p: Psbt, i: nat)
    requires Sound(e, p) && i < |p.inputs| && p.inputs[i].fact.utxo.Some? && p.inputs[i].fact.utxo.value.script.P2wpkh?
    ensures p.inputs[i].held.tap.None?
  { hide UnsignedTransaction, AllSharesOk, Derivable, ScriptsSound, CheckInput; }

  lemma SignsEach(e: Env, d: Device, p: Psbt, mine: set<nat>, i: nat)
    requires HoldsAll(e, d, p, mine) && Ordinary(p) && i < |p.inputs| && i in mine
    ensures ScriptsFit(e, Working(e, d, p, mine)) && |FullAnswer(e, d, p, mine).inputs| == |p.inputs|
    ensures var answer := FullAnswer(e, d, p, mine);
      && Derivable(e, Merge(p, answer)) && UnsignedTransaction(Fill(e, Merge(p, answer))).Ok?
      && Signs(e, Fill(e, Merge(p, answer)), answer, i)
  {
    hide Working, ScriptsFit, Scripted, FullAnswer, Dleq.Sound, PrimeOrder, Sound, Payable, Waiting, Derivable,
         Plainly, UnsignedTransaction,
      SignatureVerifies, Signature, GivesShares, SameSpend;
    BuildsTheSame(e, d, p, mine);
    FullAnswerInput(e, d, p, mine, i);
    NoTapSignature(e, p, i);
    var answer := FullAnswer(e, d, p, mine);
    var tx := Plainly(Scripted(e, Working(e, d, p, mine)));
    SignatureHolds(e, d, Probe(Fill(e, Merge(p, answer)), answer, i), tx, i);
  }

  lemma FullAnswerIsHonest(e: Env, d: Device, p: Psbt, mine: set<nat>)
    requires HoldsAll(e, d, p, mine) && Ordinary(p)
    ensures ScriptsFit(e, Working(e, d, p, mine)) && HonestAnswer(e, p, mine, FullAnswer(e, d, p, mine))
  {
    hide Working, ScriptsFit, FullAnswer, Dleq.Sound, PrimeOrder, Sound, Payable, Works, Derivable,
         UnsignedTransaction, Signs, GivesShares,
      LeavesAlone, Lone, Owns, ScriptAt, SameSkeleton, SameSpend, Plainly, Scripted;
    FullAnswerParts(e, d, p, mine);
    FullAnswerSkeleton(e, d, p, mine);
    FillsTheSame(e, d, p, mine);
    BuildsTheSame(e, d, p, mine);
    var answer := FullAnswer(e, d, p, mine);
    forall i | 0 <= i < |p.inputs|
      ensures SighashIsAll(answer.inputs[i].fact)
      ensures i in mine ==>
        GivesShares(e, p.outputs, p.inputs[i].fact, answer.inputs[i].held)
          && Signs(e, Fill(e, Merge(p, answer)), answer, i)
      ensures i !in mine ==> LeavesAlone(p.inputs[i].held, answer.inputs[i].held)
    {
      FullAnswerInput(e, d, p, mine, i);
      if i in mine { SignsEach(e, d, p, mine, i); }
    }
    forall o | 0 <= o < |p.outputs| && p.outputs[o].info.Some?
      ensures Some(answer.outputs[o].script) == ScriptAt(e, Merge(p, answer), o)
    { OldScriptIsLone(e, d, p, mine, o); }
  }

  /** Whatever a working device answers to the request of a sound session is an
    * honest answer for that session. */
  lemma AnswerIsHonest(e: Env, d: Device, p: Psbt, mine: set<nat>)
    requires Sound(e, p) && Dleq.Sound(e.curve) && PrimeOrder(e.curve) && OneScan(p.outputs) && Ordinary(p)
    requires OwnsExactly(e, d, p, mine) && Works(e, d, p)
    requires (exists i :: 0 <= i < |p.inputs| && i in mine) && (exists i :: 0 <= i < |p.inputs| && i !in mine)
    ensures var outcome := Answered(e, d, SignerRequest(p, mine));
      && (outcome.Refused? <==> !Waiting(p, mine) && !Payable(e, p))
      && (!outcome.Refused? ==> HonestAnswer(e, p, mine, outcome.answer))
  {
    hide Sound, Dleq.Sound, PrimeOrder, OneScan, Waiting, Payable, Works, OwnsExactly, Ordinary, HonestAnswer,
         Acceptable, LacksAShare,
      ScriptsFit, WithShares, Trimmed, SignedBy, Scripted;
    AnswersExactlyIfPayable(e, d, p, mine);
    if Waiting(p, mine) {
      ShareIsHonest(e, d, p, mine);
    } else if Payable(e, p) {
      FullAnswerIsHonest(e, d, p, mine);
    }
  }
}
