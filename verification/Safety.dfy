/** What one wallet can rely on, whatever the other wallet, its own signer and
  * the channel between them do. */
module Safety {
  import opened Wrappers
  import opened Sets
  import opened Curve
  import opened Chain
  import opened PsbtV2
  import opened Shares
  import opened Absorb
  import opened Soundness
  import opened Laws
  import opened Fees
  import opened Building
  import opened Matching
  import opened Joining
  import opened Finishing
  import opened SharedSession
  import Derive
  import Dleq

  /** What this wallet put in: who is paid, its coins, and its own change. */
  datatype Origin = Origin(to: Address, sats: nat, inputs: seq<Spend>, change: seq<Output>)

  function OriginOf(e: Env, half: Half, to: Address, sats: nat, role: Role, feeRate: nat): Origin
    requires HalfAsV2(e, half, to, ShareOfAmount(sats, role), feeRate).Ok?
  {
    var (psbt, index) := HalfAsV2(e, half, to, ShareOfAmount(sats, role), feeRate).value;
    Origin(to, sats, MapSeq((i: Input) => i.fact, psbt.inputs),
           if index < |psbt.outputs| then Without(psbt.outputs, index) else [])
  }

  // -------------------------------------------------------------------------
  // The invariant

  ghost predicate SpendsIt(p: Psbt, spend: Spend)
  { exists i :: 0 <= i < |p.inputs| && p.inputs[i].fact == spend }

  ghost predicate PaysIt(p: Psbt, output: Output)
  { output.info.None? && exists o :: 0 <= o < |p.outputs| && p.outputs[o] == output }

  /** The transaction still holds everything this wallet put into it. */
  ghost predicate HoldsOrigin(o: Origin, p: Psbt)
  {
    && (forall k :: 0 <= k < |o.inputs| ==> SpendsIt(p, o.inputs[k]))
    && (forall k :: 0 <= k < |o.change| ==> PaysIt(p, o.change[k]))
  }

  /** One silent payment, and it is the agreed one; only its script is open. */
  ghost predicate AgreedPayment(outputs: seq<Output>, to: Address, sats: nat)
  {
    && SilentCount(outputs) == 1
    && forall o :: 0 <= o < |outputs| && outputs[o].info.Some? ==> IsPayment(BareOutput(outputs[o]), to, sats)
  }

  ghost predicate Listed(o: Origin, mine: seq<OutPoint>)
  { forall coin :: coin in mine <==> exists k :: 0 <= k < |o.inputs| && o.inputs[k].coin == coin }

  ghost predicate Standing(e: Env, o: Origin, p: Psbt)
  {
    && Sound(e, p) && FeeOf(p).Some? && p.inputs != [] && NoCoinTwice(p)
    && AgreedPayment(p.outputs, o.to, o.sats) && HoldsOrigin(o, p)
  }

  ghost predicate Recorded(e: Env, p: Psbt, txid: Option<nat>)
  { UnsignedTransaction(p).Ok? && txid == Some(e.txid(UnsignedTransaction(p).value)) }

  /** True of a session from the moment it is made, for as long as it lives. */
  ghost predicate Kept(e: Env, o: Origin, r: Record)
  {
    && r.to == o.to && r.sats == o.sats && Listed(o, r.mine)
    && match r.stage
       case Proposing => r.newest == Mine && Clean(e, r.psbt)
         && PaysAgreed(r.psbt.outputs, o.to, o.sats) && HoldsOrigin(o, r.psbt)
       case Active => Standing(e, o, r.psbt)
       case Done => Standing(e, o, r.psbt) && Recorded(e, r.psbt, r.txid)
  }

  // -------------------------------------------------------------------------
  // Where it starts

  lemma PartsArePaid(p: Psbt, parts: seq<Output>)
    requires forall k :: 0 <= k < |parts| ==> parts[k] in p.outputs && parts[k].info.None?
    ensures forall k :: 0 <= k < |parts| ==> PaysIt(p, parts[k])
  { }

  lemma ProposingIsKept(e: Env, me: nat, session: nat, half: Half, to: Address, sats: nat, feeRate: nat)
    requires ProposedSession(e, me, session, half, to, sats, feeRate).Ok?
    ensures HalfAsV2(e, half, to, ShareOfAmount(sats, Start), feeRate).Ok?
    ensures Kept(e, OriginOf(e, half, to, sats, Start, feeRate),
                 ProposedSession(e, me, session, half, to, sats, feeRate).value)
  {
    hide HalfAsV2, Clean;
    var r := ProposedSession(e, me, session, half, to, sats, feeRate).value;
    var share := ShareOfAmount(sats, Start);
    HalfIsClean(e, half, to, share, feeRate);
    ProposedIsClean(e, half, to, sats, feeRate);
    var (psbt, index) := HalfAsV2(e, half, to, share, feeRate).value;
    var o := OriginOf(e, half, to, sats, Start, feeRate);
    assert r.psbt.inputs == psbt.inputs;
    forall k | 0 <= k < |o.inputs|
      ensures SpendsIt(r.psbt, o.inputs[k])
    { assert r.psbt.inputs[k].fact == o.inputs[k]; }
    forall k | 0 <= k < |o.change| ensures o.change[k] in r.psbt.outputs && o.change[k].info.None? {
      assert o.change[k] == r.psbt.outputs[if k < index then k else k + 1];
    }
    PartsArePaid(r.psbt, o.change);
    forall coin ensures coin in r.mine <==> exists k :: 0 <= k < |o.inputs| && o.inputs[k].coin == coin {
      assert forall k :: 0 <= k < |o.inputs| ==> r.mine[k] == o.inputs[k].coin;
    }
  }

  /** This wallet's half, appended to a proposal, is all there. */
  lemma AppendedHolds(before: seq<Input>, front: seq<Output>, mine: Psbt, placeholder: nat, joined: Psbt, o: Origin)
    requires placeholder < |mine.outputs| && joined.inputs == before + mine.inputs
    requires joined.outputs == front + Without(mine.outputs, placeholder)
    requires o.inputs == MapSeq((i: Input) => i.fact, mine.inputs) && o.change == Without(mine.outputs, placeholder)
    requires forall i :: 0 <= i < |mine.outputs| && i != placeholder ==> mine.outputs[i].info.None?
    ensures HoldsOrigin(o, joined)
  {
    forall k | 0 <= k < |o.inputs| ensures SpendsIt(joined, o.inputs[k]) {
      assert joined.inputs[|before| + k].fact == o.inputs[k];
    }
    forall k | 0 <= k < |o.change| ensures PaysIt(joined, o.change[k]) {
      assert o.change[k] == mine.outputs[if k < placeholder then k else k + 1];
      assert joined.outputs[|front| + k] == o.change[k];
    }
  }

  lemma PaymentIsBare(outputs: seq<Output>, to: Address, sats: nat)
    requires PaysAgreed(outputs, to, sats)
    ensures AgreedPayment(outputs, to, sats)
  { }

  lemma JoiningIsKept(e: Env, me: nat, proposal: Proposal, half: Half)
    requires CheckedProposal(e, proposal) && JoinedSession(e, me, proposal, half).Ok?
    ensures HalfAsV2(e, half, proposal.to, ShareOfAmount(proposal.sats, Join), proposal.feeRate).Ok?
    ensures Kept(e, OriginOf(e, half, proposal.to, proposal.sats, Join, proposal.feeRate),
                 JoinedSession(e, me, proposal, half).value)
  {
    hide *;
    var share := ShareOfAmount(proposal.sats, Join);
    JoinedRecord(e, me, proposal, half);
    JoinedIsSound(e, proposal, half);
    JoinedParts(e, proposal, half);
    JoinerShare(e, proposal);
    HalfIsClean(e, half, proposal.to, share, proposal.feeRate);
    var (mine, placeholder) := HalfAsV2(e, half, proposal.to, share, proposal.feeRate).value;
    OriginParts(e, half, proposal.to, proposal.sats, Join, proposal.feeRate);
    var o := OriginOf(e, half, proposal.to, proposal.sats, Join, proposal.feeRate);
    var r := JoinedSession(e, me, proposal, half).value;
    AppendedHolds(proposal.psbt.inputs, proposal.psbt.outputs, mine, placeholder, r.psbt, o);
    PaymentIsBare(r.psbt.outputs, proposal.to, proposal.sats);
    JoinerLists(proposal.psbt, r.psbt, o);
    ActiveIsKept(e, o, r);
  }

  lemma JoinedRecord(e: Env, me: nat, proposal: Proposal, half: Half)
    requires JoinedSession(e, me, proposal, half).Ok?
    ensures Joined(e, proposal, half).Ok?
    ensures var r := JoinedSession(e, me, proposal, half).value;
      && r.to == proposal.to && r.sats == proposal.sats && r.stage == Active
      && r.psbt == Joined(e, proposal, half).value
      && r.mine == OwnCoins(r.psbt.inputs, Coins(proposal.psbt))
  { }

  lemma OriginParts(e: Env, half: Half, to: Address, sats: nat, role: Role, feeRate: nat)
    requires HalfAsV2(e, half, to, ShareOfAmount(sats, role), feeRate).Ok?
    ensures var (psbt, index) := HalfAsV2(e, half, to, ShareOfAmount(sats, role), feeRate).value;
      index < |psbt.outputs| ==>
        OriginOf(e, half, to, sats, role, feeRate) ==
          Origin(to, sats, MapSeq((i: Input) => i.fact, psbt.inputs), Without(psbt.outputs, index))
  { }

  lemma ActiveIsKept(e: Env, o: Origin, r: Record)
    requires r.stage == Active && r.to == o.to && r.sats == o.sats && Listed(o, r.mine)
    requires Sound(e, r.psbt) && FeeOf(r.psbt).Some? && r.psbt.inputs != [] && NoCoinTwice(r.psbt)
    requires AgreedPayment(r.psbt.outputs, o.to, o.sats) && HoldsOrigin(o, r.psbt)
    ensures Kept(e, o, r)
  { }

  lemma JoinerShare(e: Env, proposal: Proposal)
    requires CheckedProposal(e, proposal)
    ensures ShareOfAmount(proposal.sats, Join) > 0 && AddressOk(e.curve, proposal.to)
  { }

  lemma JoinedParts(e: Env, proposal: Proposal, half: Half)
    requires Joined(e, proposal, half).Ok?
    ensures var built := HalfAsV2(e, half, proposal.to, ShareOfAmount(proposal.sats, Join), proposal.feeRate);
      && built.Ok? && var (mine, placeholder) := built.value;
      && placeholder < |mine.outputs|
      && Joined(e, proposal, half).value.inputs == proposal.psbt.inputs + mine.inputs
      && Joined(e, proposal, half).value.outputs == proposal.psbt.outputs + Without(mine.outputs, placeholder)
  { }

  lemma JoinerLists(proposal: Psbt, joined: Psbt, o: Origin)
    requires proposal.inputs <= joined.inputs && NoCoinTwice(joined)
    requires |joined.inputs| == |proposal.inputs| + |o.inputs|
    requires o.inputs == MapSeq((i: Input) => i.fact, joined.inputs[|proposal.inputs|..])
    ensures Listed(o, OwnCoins(joined.inputs, Coins(proposal)))
  {
    var own := OwnCoins(joined.inputs, Coins(proposal));
    forall k | 0 <= k < |o.inputs| ensures o.inputs[k].coin in own { OwnIsListed(proposal, joined, o, k); }
    forall coin | coin in own ensures exists k :: 0 <= k < |o.inputs| && o.inputs[k].coin == coin {
      ListedIsOwn(proposal, joined, o, coin);
    }
  }

  lemma OwnIsListed(proposal: Psbt, joined: Psbt, o: Origin, k: nat)
    requires proposal.inputs <= joined.inputs && NoCoinTwice(joined)
    requires |joined.inputs| == |proposal.inputs| + |o.inputs| && k < |o.inputs|
    requires o.inputs == MapSeq((i: Input) => i.fact, joined.inputs[|proposal.inputs|..])
    ensures o.inputs[k].coin in OwnCoins(joined.inputs, Coins(proposal))
  {
    hide OwnCoins;
    var at := |proposal.inputs| + k;
    assert joined.inputs[at].fact.coin == o.inputs[k].coin;
    forall i | 0 <= i < |proposal.inputs| ensures Coins(proposal)[i] != o.inputs[k].coin {
      assert Coins(proposal)[i] == joined.inputs[i].fact.coin;
    }
  }

  lemma ListedIsOwn(proposal: Psbt, joined: Psbt, o: Origin, coin: OutPoint)
    requires proposal.inputs <= joined.inputs && |joined.inputs| == |proposal.inputs| + |o.inputs|
    requires o.inputs == MapSeq((i: Input) => i.fact, joined.inputs[|proposal.inputs|..])
    requires coin in OwnCoins(joined.inputs, Coins(proposal))
    ensures exists k :: 0 <= k < |o.inputs| && o.inputs[k].coin == coin
  {
    hide OwnCoins;
    var i :| 0 <= i < |joined.inputs| && joined.inputs[i].fact.coin == coin;
    assert forall j :: 0 <= j < |proposal.inputs| ==> Coins(proposal)[j] == joined.inputs[j].fact.coin;
    assert o.inputs[i - |proposal.inputs|].coin == coin;
  }

  // -------------------------------------------------------------------------
  // What no event breaks

  lemma SameSkeletonStands(e: Env, o: Origin, p: Psbt, q: Psbt)
    requires Skeleton(p) == Skeleton(q)
    ensures HoldsOrigin(o, p) ==> HoldsOrigin(o, q)
    ensures NoCoinTwice(p) ==> NoCoinTwice(q)
    ensures AgreedPayment(p.outputs, o.to, o.sats) ==> AgreedPayment(q.outputs, o.to, o.sats)
  {
    SkeletonParts(p, q);
    forall i | 0 <= i < |p.outputs|
      ensures p.outputs[i].info == q.outputs[i].info && (p.outputs[i].info.None? ==> q.outputs[i] == p.outputs[i])
    {
      assert BareOutput(p.outputs[i]) == BareOutput(q.outputs[i]);
    }
    SameSilentCount(p.outputs, q.outputs);
    if HoldsOrigin(o, p) {
      forall k | 0 <= k < |o.inputs| ensures SpendsIt(q, o.inputs[k]) {
        assert SpendsIt(p, o.inputs[k]);
        var i :| 0 <= i < |p.inputs| && p.inputs[i].fact == o.inputs[k];
        assert q.inputs[i].fact == o.inputs[k];
      }
      forall k | 0 <= k < |o.change| ensures PaysIt(q, o.change[k]) {
        assert PaysIt(p, o.change[k]);
        var i :| 0 <= i < |p.outputs| && p.outputs[i] == o.change[k];
        assert q.outputs[i] == o.change[k];
      }
    }
  }

  lemma AbsorbStands(e: Env, o: Origin, p: Psbt, incoming: Psbt, source: Source, mine: set<nat>)
    requires Standing(e, o, p) && Absorbed(e, p, incoming, source, mine).Ok?
    ensures Standing(e, o, Absorbed(e, p, incoming, source, mine).value)
    ensures Within(p, Absorbed(e, p, incoming, source, mine).value)
  {
    hide Absorbed, FeeOf, SilentCount;
    var next := Absorbed(e, p, incoming, source, mine).value;
    AbsorbKeepsSound(e, p, incoming, source, mine);
    AbsorbGrows(e, p, incoming, source, mine);
    SkeletonParts(p, next);
    SameSkeletonStands(e, o, p, next);
    SameFee(p, next);
  }

  lemma AdoptStands(e: Env, o: Origin, p: Psbt, joined: Psbt, feeRate: nat)
    requires Clean(e, p) && PaysAgreed(p.outputs, o.to, o.sats) && HoldsOrigin(o, p)
    requires Adopted(e, p, joined, feeRate).Ok?
    ensures Standing(e, o, Adopted(e, p, joined, feeRate).value)
  {
    hide Adopted, FeeOf, Clean, Sound, Taking;
    var state := Adopted(e, p, joined, feeRate).value;
    AdoptedIsSound(e, p, joined, feeRate);
    AdoptedKeepsProposal(e, p, joined, feeRate);
    AdoptedPaysAgreed(e, p, joined, feeRate, o.to, o.sats);
    forall k | 0 <= k < |o.inputs| ensures SpendsIt(state, o.inputs[k]) {
      assert SpendsIt(p, o.inputs[k]);
      var i :| 0 <= i < |p.inputs| && p.inputs[i].fact == o.inputs[k];
      assert Holds(state.inputs, p.inputs[i]);
    }
    forall k | 0 <= k < |o.change| ensures PaysIt(state, o.change[k]) {
      assert PaysIt(p, o.change[k]);
      assert o.change[k] in multiset(p.outputs);
      assert o.change[k] in multiset(state.outputs);
      assert o.change[k] in state.outputs;
    }
  }

  lemma RespondKeeps(e: Env, o: Origin, r: Record, answer: Psbt)
    requires Kept(e, o, r) && Responded(e, r, answer).Ok?
    ensures Kept(e, o, Responded(e, r, answer).value)
    ensures r.stage == Active && Missing(Responded(e, r, answer).value.psbt) < Missing(r.psbt)
  {
    hide Absorbed, MyInputs, Missing;
    var mine := MyInputs(r.mine, r.psbt.inputs).value;
    AbsorbStands(e, o, r.psbt, answer, Signer, mine);
    SoundOfStanding(e, o, r.psbt);
    AbsorbIsProgress(e, r.psbt, answer, Signer, mine);
  }

  lemma SoundOfStanding(e: Env, o: Origin, p: Psbt)
    requires Standing(e, o, p)
    ensures Sound(e, p)
  { }

  lemma UpdateKeeps(e: Env, o: Origin, r: Record, m: Message)
    requires Kept(e, o, r) && ReceivedUpdate(e, r, m).Ok?
    ensures Kept(e, o, ReceivedUpdate(e, r, m).value.0)
    ensures r.stage != Proposing ==> Within(r.psbt, ReceivedUpdate(e, r, m).value.0.psbt)
  {
    hide Absorbed, Adopted, MyInputs, Standing, HoldsOrigin;
    if r.stage == Done || m.psbt.None? {
      WithinReflexive(r.psbt);
    } else {
      if r.stage == Proposing { AdoptStands(e, o, r.psbt, m.psbt.value, r.feeRate); }
      var before := if r.stage == Proposing then Adopted(e, r.psbt, m.psbt.value, r.feeRate) else Ok(r.psbt);
      var mine := MyInputs(r.mine, before.value.inputs).value;
      AbsorbStands(e, o, before.value, m.psbt.value, Peer, mine);
    }
  }

  lemma ReceiveKeeps(e: Env, o: Origin, r: Record, m: Message)
    requires Kept(e, o, r) && Received(e, r, m).Ok?
    ensures Kept(e, o, Received(e, r, m).value.0)
    ensures r.stage != Proposing ==> Within(r.psbt, Received(e, r, m).value.0.psbt)
  {
    hide ReceivedUpdate, UnsignedTransaction, Standing;
    WithinReflexive(r.psbt);
    if !NotForMe(r, m) && (m.kind == UpdateKind || m.psbt.Some?) && ReceivedUpdate(e, r, m).Ok? {
      UpdateKeeps(e, o, r, m);
      UpdateStage(e, r, m);
    }
  }

  lemma UpdateStage(e: Env, r: Record, m: Message)
    requires ReceivedUpdate(e, r, m).Ok?
    ensures r.stage == Done ==> ReceivedUpdate(e, r, m).value.0 == r
    ensures r.stage != Done ==> ReceivedUpdate(e, r, m).value.0.stage == Active
    ensures ReceivedUpdate(e, r, m).value.0.visits == r.visits
  { }

  lemma FinishKeeps(e: Env, o: Origin, r: Record, txid: nat)
    requires Kept(e, o, r) && Finished(e, r, txid).Ok?
    ensures Kept(e, o, Finished(e, r, txid).value) && Finished(e, r, txid).value.psbt == r.psbt
  { }

  // -------------------------------------------------------------------------
  // Every run

  /** Anything that can happen to a session. `Sent` is the driver emptying the outbox. */
  datatype Event = Receive(message: Message) | Answer(answer: Psbt) | Finish(id: nat) | Sent

  /** What a session is afterwards; a refused event leaves it as it was. */
  function After(e: Env, r: Record, event: Event): Record
  {
    match event
    case Receive(m) => (match Received(e, r, m) case Ok((next, _)) => next case Err(_) => r)
    case Answer(p) => (match Responded(e, r, p) case Ok(next) => next case Err(_) => r)
    case Finish(id) => (match Finished(e, r, id) case Ok(next) => next case Err(_) => r)
    case Sent => r.(outbox := [])
  }

  function Run(e: Env, r: Record, events: seq<Event>): Record
  { if events == [] then r else After(e, Run(e, r, events[..|events| - 1]), events[|events| - 1]) }

  lemma EventKeeps(e: Env, o: Origin, r: Record, event: Event)
    requires Kept(e, o, r)
    ensures Kept(e, o, After(e, r, event))
  {
    hide Received, Responded, Finished, Standing;
    match event
    case Receive(m) => if Received(e, r, m).Ok? { ReceiveKeeps(e, o, r, m); }
    case Answer(p) => if Responded(e, r, p).Ok? { RespondKeeps(e, o, r, p); }
    case Finish(id) => if Finished(e, r, id).Ok? { FinishKeeps(e, o, r, id); }
    case Sent =>
  }

  /** Whatever messages and answers arrive and in whatever order, the invariant holds. */
  lemma {:induction false} EveryRunKeeps(e: Env, o: Origin, r: Record, events: seq<Event>)
    requires Kept(e, o, r)
    ensures Kept(e, o, Run(e, r, events))
  {
    hide Kept, After;
    if events != [] {
      EveryRunKeeps(e, o, r, events[..|events| - 1]);
      EventKeeps(e, o, Run(e, r, events[..|events| - 1]), events[|events| - 1]);
    }
  }

  // -------------------------------------------------------------------------
  // What a finished transaction is

  ghost predicate SpendsOnce(tx: Transaction, spend: Spend)
  {
    exists i :: 0 <= i < |tx.inputs| && tx.inputs[i] == TxIn(spend.coin, SequenceOf(spend))
      && forall j :: 0 <= j < |tx.inputs| && tx.inputs[j].coin == spend.coin ==> j == i
  }

  /** Output `at` is the agreed payment, and no other output is a silent payment. */
  ghost predicate PaysAgreedAt(e: Env, o: Origin, p: Psbt, tx: Transaction, at: nat)
  {
    && at < |p.outputs| == |tx.outputs|
    && p.outputs[at].info == Some(InfoOf(o.to))
    && (forall j :: 0 <= j < |p.outputs| && p.outputs[j].info.Some? ==> j == at)
    && ScriptAt(e, p, at) == Some(tx.outputs[at].script)
    && tx.outputs[at].value == o.sats
  }

  lemma {:induction false} SilentOutputExists(outputs: seq<Output>)
    requires SilentCount(outputs) > 0
    ensures exists o :: 0 <= o < |outputs| && outputs[o].info.Some?
  {
    if outputs[|outputs| - 1].info.None? {
      SilentOutputExists(outputs[..|outputs| - 1]);
      var o :| 0 <= o < |outputs| - 1 && outputs[..|outputs| - 1][o].info.Some?;
      assert outputs[o].info.Some?;
    }
  }

  lemma OnlySilentOutput(outputs: seq<Output>) returns (at: nat)
    requires SilentCount(outputs) == 1
    ensures at < |outputs| && outputs[at].info.Some?
    ensures forall j :: 0 <= j < |outputs| && outputs[j].info.Some? ==> j == at
  {
    SilentOutputExists(outputs);
    at :| 0 <= at < |outputs| && outputs[at].info.Some?;
    SilentCountWithout(outputs, at);
    forall j | 0 <= j < |outputs| && j != at ensures outputs[j].info.None? {
      var i := if j < at then j else j - 1;
      assert Without(outputs, at)[i] == outputs[j];
      if outputs[j].info.Some? { SilentCountWithout(Without(outputs, at), i); }
    }
  }

  lemma TransactionParts(p: Psbt, tx: Transaction)
    requires UnsignedTransaction(p) == Ok(tx)
    ensures |tx.inputs| == |p.inputs| && |tx.outputs| == |p.outputs|
    ensures forall i :: 0 <= i < |p.inputs| ==>
      tx.inputs[i] == TxIn(p.inputs[i].fact.coin, SequenceOf(p.inputs[i].fact))
    ensures forall o :: 0 <= o < |p.outputs| ==> tx.outputs[o] == TxOut(p.outputs[o].amount, p.outputs[o].script)
    ensures forall o :: 0 <= o < |p.outputs| ==> p.outputs[o].script != NO_SCRIPT
  { }

  lemma CoinSpentOnce(p: Psbt, tx: Transaction, spend: Spend)
    requires UnsignedTransaction(p) == Ok(tx) && NoCoinTwice(p) && SpendsIt(p, spend)
    ensures SpendsOnce(tx, spend)
  { }

  /** Whatever transaction a session can be finished with spends each of this
    * wallet's coins once and as it meant to, pays its change as it was built, and
    * pays the agreed recipient the agreed amount in the only silent payment, at
    * the script the shares derive. */
  lemma FinishedIsWhatWasAgreed(e: Env, o: Origin, r: Record) returns (at: nat)
    requires Kept(e, o, r) && FinalizedSession(e, r).Ok?
    ensures var tx := FinalizedSession(e, r).value.tx;
      && (forall k :: 0 <= k < |o.inputs| ==> SpendsOnce(tx, o.inputs[k]))
      && (forall k :: 0 <= k < |o.change| ==> TxOut(o.change[k].amount, o.change[k].script) in tx.outputs)
      && PaysAgreedAt(e, o, r.psbt, tx, at)
    ensures r.stage == Done ==> r.txid == Some(e.txid(FinalizedSession(e, r).value.tx))
  {
    hide Finalized, Sound, FeeOf, Audited, UnsignedTransaction, AllVerified, CoinsChecked;
    var p, tx := r.psbt, FinalizedSession(e, r).value.tx;
    FinalizedMeans(e, p);
    TransactionParts(p, tx);
    forall k | 0 <= k < |o.inputs| ensures SpendsOnce(tx, o.inputs[k]) { CoinSpentOnce(p, tx, o.inputs[k]); }
    forall k | 0 <= k < |o.change| ensures TxOut(o.change[k].amount, o.change[k].script) in tx.outputs {
      assert PaysIt(p, o.change[k]);
      var i :| 0 <= i < |p.outputs| && p.outputs[i] == o.change[k];
      assert tx.outputs[i] == TxOut(o.change[k].amount, o.change[k].script);
    }
    at := OnlySilentOutput(p.outputs);
    assert IsPayment(BareOutput(p.outputs[at]), o.to, o.sats);
    AuditedScript(e, p, at);
  }

  /** Whatever messages and answers a session went through: if the result can be
    * finished, it is this wallet's own send, paying at the very script a lone
    * sender holding every key would have paid. */
  lemma AgreedInEveryRun(e: Env, o: Origin, r: Record, events: seq<Event>) returns (at: nat)
    requires PrimeOrder(e.curve) && Dleq.Sound(e.curve) && Kept(e, o, r)
    requires FinalizedSession(e, Run(e, r, events)).Ok?
    ensures var after := Run(e, r, events);
      var tx := FinalizedSession(e, after).value.tx;
      && (forall k :: 0 <= k < |o.inputs| ==> SpendsOnce(tx, o.inputs[k]))
      && (forall k :: 0 <= k < |o.change| ==> TxOut(o.change[k].amount, o.change[k].script) in tx.outputs)
      && PaysAgreedAt(e, o, after.psbt, tx, at)
      && Some(tx.outputs[at].script) == Derive.LoneSender(e.curve, Sum(e.curve, KeysOf(e, after.psbt.inputs)),
           CoinsOf(after.psbt.inputs), o.to.scan, o.to.spend, Rank(e.curve, after.psbt.outputs, at))
  {
    hide Kept, Run, Finalized, ScriptAt, Derive.LoneSender;
    EveryRunKeeps(e, o, r, events);
    at := FinishedIsWhatWasAgreed(e, o, Run(e, r, events));
    FinishedPaysLikeALoneSender(e, Run(e, r, events).psbt, at);
  }

  lemma AuditedScript(e: Env, p: Psbt, at: nat)
    requires Audited(e, p) && at < |p.outputs| && p.outputs[at].info.Some? && p.outputs[at].script != NO_SCRIPT
    ensures ScriptAt(e, p, at) == Some(p.outputs[at].script)
  { }

  // -------------------------------------------------------------------------
  // A session that is ready can be finished

  lemma AllInputsSigned(p: Psbt)
    requires |SignedInputs(p)| == |p.inputs|
    ensures AllSigned(p)
  {
    var all := SignedInputs(p) + UnsignedInputs(p);
    CountToN(all, |p.inputs|);
    SubsetSize(SignedInputs(p), all);
    forall i | 0 <= i < |p.inputs| ensures CarriesSignature(p.inputs[i].held) { assert i in all; }
  }

  /** The last check repeats every check, and cannot fail. */
  lemma ReadyCanFinish(e: Env, o: Origin, r: Record)
    requires Kept(e, o, r) && Ready(r)
    ensures FinalizedSession(e, r).Ok?
    ensures Finished(e, r, e.txid(FinalizedSession(e, r).value.tx)).Ok?
  {
    hide Sound, FeeOf, Finalized;
    AllInputsSigned(r.psbt);
    SoundIsFinishable(e, r.psbt);
  }

  /** And a wallet that has its coins in the transaction never fails to find them. */
  lemma TurnIsKnown(e: Env, o: Origin, r: Record)
    requires Kept(e, o, r)
    ensures MyInputs(r.mine, r.psbt.inputs).Some? && MyTurn(r).Ok?
  {
    hide Standing, Clean;
    assert HoldsOrigin(o, r.psbt) by { HoldsInEveryStage(e, o, r); }
    forall k | 0 <= k < |r.mine| ensures PositionOfCoin(r.psbt.inputs, r.mine[k]).Some? {
      assert r.mine[k] in r.mine;
      var j :| 0 <= j < |o.inputs| && o.inputs[j].coin == r.mine[k];
      assert SpendsIt(r.psbt, o.inputs[j]);
    }
  }

  lemma HoldsInEveryStage(e: Env, o: Origin, r: Record)
    requires Kept(e, o, r)
    ensures HoldsOrigin(o, r.psbt)
  { }

  // -------------------------------------------------------------------------
  // Progress

  /** Visits to the signer plus what is still missing never grow once joined. */
  lemma EventIsProgress(e: Env, o: Origin, r: Record, event: Event)
    requires Kept(e, o, r) && r.stage != Proposing
    ensures var next := After(e, r, event);
      next.stage != Proposing && next.visits + Missing(next.psbt) <= r.visits + Missing(r.psbt)
  {
    hide Missing, Standing, Sound, UnsignedTransaction, Finalized, Absorbed, MyInputs;
    SoundUnlessProposing(e, o, r);
    match event
    case Receive(m) =>
      if Received(e, r, m).Ok? {
        var next := Received(e, r, m).value.0;
        ReceiveKeeps(e, o, r, m);
        SoundUnlessProposing(e, o, next);
        if next.psbt != r.psbt { GrowingSound(e, r.psbt, next.psbt); }
      }
    case Answer(p) => if Responded(e, r, p).Ok? { RespondKeeps(e, o, r, p); }
    case Finish(id) =>
    case Sent =>
  }

  lemma SoundUnlessProposing(e: Env, o: Origin, r: Record)
    requires Kept(e, o, r)
    ensures r.stage != Proposing ==> Sound(e, r.psbt)
  { }

  lemma GrowingSound(e: Env, p: Psbt, q: Psbt)
    requires Sound(e, p) && Sound(e, q) && Within(p, q) && p != q
    ensures Missing(q) < Missing(p)
  { GrowingIsProgress(e, p, q); }

  /** So the number of useful answers a signer can still give is bounded by what
    * is missing, over any run whatsoever. */
  lemma {:induction false} VisitsAreBounded(e: Env, o: Origin, r: Record, events: seq<Event>)
    requires Kept(e, o, r) && r.stage != Proposing
    ensures Run(e, r, events).stage != Proposing
    ensures Run(e, r, events).visits + Missing(Run(e, r, events).psbt) <= r.visits + Missing(r.psbt)
  {
    hide Kept, After, Missing;
    if events != [] {
      var most := events[..|events| - 1];
      VisitsAreBounded(e, o, r, most);
      EveryRunKeeps(e, o, r, most);
      EventIsProgress(e, o, Run(e, r, most), events[|events| - 1]);
    }
  }
}
