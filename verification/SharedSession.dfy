/** One wallet's record of one shared send, and how it moves. */
module SharedSession {
  import opened Wrappers
  import opened Chain
  import opened PsbtV2
  import opened Shares
  import opened Absorb
  import opened Fees
  import opened Building
  import opened Finishing

  /** Proposed and waiting, joined, or broadcast by either side. */
  datatype Stage = Proposing | Active | Done

  /** Where the newest state came from, which decides whose turn it is. */
  datatype Newest = Mine | Theirs | JustJoined

  /** What the next visit to the signer will be. */
  datatype Pass = ShareOnlyPass | SignPass

  /** What became of a message from the other wallet. */
  datatype Outcome = Ignored | Applied | SeenDone(txid: nat)

  /** What the session file holds. */
  datatype Record = Record(
    session: nat,
    role: Role,
    me: nat,
    peer: Option<nat>,
    to: Address,
    sats: nat,
    feeRate: nat,
    stage: Stage,
    newest: Newest,
    psbt: Psbt,
    mine: seq<OutPoint>,
    visits: nat,
    outbox: seq<Message>,
    txid: Option<nat>
  )

  // -------------------------------------------------------------------------
  // What the operations mean

  function ProposalMessage(r: Record): Message
  { Message(r.session, ProposalKind, r.me, Some(r.psbt), Some(r.to), Some(r.sats), Some(r.feeRate), None) }

  function UpdateMessage(r: Record): Message
  { Message(r.session, UpdateKind, r.me, Some(r.psbt), None, None, None, None) }

  function DoneMessage(r: Record, txid: nat): Message
  { Message(r.session, DoneKind, r.me, Some(r.psbt), None, None, None, Some(txid)) }

  function ProposedSession(e: Env, me: nat, session: nat, half: Half, to: Address, sats: nat,
                           feeRate: nat): Result<Record, Refusal>
  {
    var psbt := Proposed(e, half, to, sats, feeRate);
    if psbt.Err? then Err(psbt.why)
    else
      var r := Record(session, Start, me, None, to, sats, feeRate, Proposing, Mine, psbt.value,
                 Coins(psbt.value), 0, [], None);
      Ok(r.(outbox := [ProposalMessage(r)]))
  }

  predicate SpentBy(inputs: seq<Input>, coin: OutPoint)
  { exists i :: 0 <= i < |inputs| && inputs[i].fact.coin == coin }

  /** The coins of `inputs` that are not among `theirs`, in order. */
  function OwnCoins(inputs: seq<Input>, theirs: seq<OutPoint>): (own: seq<OutPoint>)
    ensures forall coin :: coin in own <==> coin !in theirs && SpentBy(inputs, coin)
  {
    if inputs == [] then [] else
    var most := OwnCoins(inputs[..|inputs| - 1], theirs);
    var last := inputs[|inputs| - 1].fact.coin;
    assert forall i :: 0 <= i < |inputs| - 1 ==> inputs[..|inputs| - 1][i] == inputs[i];
    assert inputs[|inputs| - 1].fact.coin == last;
    if last in theirs then most else most + [last]
  }

  function JoinedSession(e: Env, me: nat, proposal: Proposal, half: Half): Result<Record, Refusal>
  {
    var joined := Joined(e, proposal, half);
    if joined.Err? then Err(joined.why)
    else Ok(Record(proposal.session, Join, me, Some(proposal.from), proposal.to, proposal.sats, proposal.feeRate,
      Active, JustJoined, joined.value, OwnCoins(joined.value.inputs, Coins(proposal.psbt)), 0, [], None))
  }

  function PositionOfCoin(inputs: seq<Input>, coin: OutPoint): (r: Option<nat>)
    ensures r.Some? ==> r.value < |inputs| && inputs[r.value].fact.coin == coin
    ensures r.Some? ==> forall i :: 0 <= i < r.value ==> inputs[i].fact.coin != coin
    ensures r.None? ==> forall i :: 0 <= i < |inputs| ==> inputs[i].fact.coin != coin
  {
    if inputs == [] then None
    else if inputs[0].fact.coin == coin then Some(0)
    else
      var rest := PositionOfCoin(inputs[1..], coin);
      assert forall i :: 0 < i < |inputs| ==> inputs[i] == inputs[1..][i - 1];
      if rest.None? then None else Some(rest.value + 1)
  }

  predicate AllThere(mine: seq<OutPoint>, inputs: seq<Input>)
  { forall k :: 0 <= k < |mine| ==> PositionOfCoin(inputs, mine[k]).Some? }

  /** Where this wallet's coins stand, if every one of them is there. */
  function MyInputs(mine: seq<OutPoint>, inputs: seq<Input>): Option<set<nat>>
  {
    if !AllThere(mine, inputs) then None
    else Some(set k | 0 <= k < |mine| :: PositionOfCoin(inputs, mine[k]).value)
  }

  function MyTurn(r: Record): Result<bool, Refusal>
  {
    if r.stage != Active || r.newest == Mine then Ok(false)
    else
      var mine := MyInputs(r.mine, r.psbt.inputs);
      if mine.None? then Err(MissingCoin) else Ok(!(mine.value <= SignedInputs(r.psbt)))
  }

  predicate Ready(r: Record)
  { r.stage == Active && |SignedInputs(r.psbt)| == |r.psbt.inputs| }

  /** A share is missing that is not this wallet's to give. */
  predicate Waiting(p: Psbt, mine: set<nat>)
  {
    exists i, o :: 0 <= i < |p.inputs| && 0 <= o < |p.outputs| && i !in mine
      && p.outputs[o].info.Some? && p.outputs[o].info.value.scan !in p.inputs[i].held.shares
  }

  function NextPass(e: Env, r: Record): Result<Pass, Refusal>
  {
    var mine := MyInputs(r.mine, r.psbt.inputs);
    if mine.None? then Err(MissingCoin)
    else if !AllSharesOk(e, r.psbt) then Err(BadShare)
    else Ok(if Waiting(r.psbt, mine.value) then ShareOnlyPass else SignPass)
  }

  /** The whole state, without any signature of the other wallet's signer. */
  function SignerRequest(p: Psbt, mine: set<nat>): Psbt
  {
    p.(global := p.global.(flags := 0),
       inputs := seq(|p.inputs|, i requires 0 <= i < |p.inputs| =>
         if i in mine then p.inputs[i]
         else p.inputs[i].(held := p.inputs[i].held.(partials := [], tap := None))))
  }

  function Requested(r: Record): Result<Psbt, Refusal>
  {
    if r.stage != Active then Err(WrongStage)
    else if MyTurn(r).Err? then Err(MyTurn(r).why)
    else if !MyTurn(r).value then Err(NotMyTurn)
    else Ok(SignerRequest(r.psbt, MyInputs(r.mine, r.psbt.inputs).value))
  }

  function Responded(e: Env, r: Record, answer: Psbt): Result<Record, Refusal>
  {
    if MyTurn(r).Err? then Err(MyTurn(r).why)
    else if !MyTurn(r).value then Err(NotMyTurn)
    else
      var next := Absorbed(e, r.psbt, answer, Signer, MyInputs(r.mine, r.psbt.inputs).value);
      if next.Err? then Err(next.why)
      else if next.value == r.psbt then Err(NothingNew)
      else
        var moved := r.(psbt := next.value, newest := Mine, visits := r.visits + 1);
        Ok(moved.(outbox := r.outbox + [UpdateMessage(moved)]))
  }

  function ReceivedUpdate(e: Env, r: Record, m: Message): Result<(Record, Outcome), Refusal>
  {
    if r.stage == Done then Ok((r, Ignored))
    else if m.psbt.None? then Err(Malformed)
    else
      var before := if r.stage == Proposing then Adopted(e, r.psbt, m.psbt.value, r.feeRate) else Ok(r.psbt);
      if before.Err? then Err(before.why)
      else if MyInputs(r.mine, before.value.inputs).None? then Err(MissingCoin)
      else
        var next := Absorbed(e, before.value, m.psbt.value, Peer, MyInputs(r.mine, before.value.inputs).value);
        if next.Err? then Err(next.why)
        else if r.stage == Active && next.value == before.value then Ok((r, Ignored))
        else Ok((r.(psbt := next.value, stage := Active, newest := Theirs, peer := Some(m.from)), Applied))
  }

  function ReceivedDone(e: Env, r: Record, m: Message): Result<(Record, Outcome), Refusal>
  {
    if m.txid.None? then Err(Malformed)
    else if r.stage == Done then (if r.txid == m.txid then Ok((r, Ignored)) else Err(WrongTransaction))
    else if r.stage == Proposing then Err(WrongStage)
    else
      var updated := if m.psbt.Some? then ReceivedUpdate(e, r, m) else Ok((r, Ignored));
      if updated.Err? then Err(updated.why)
      else
        var now := updated.value.0;
        if UnsignedTransaction(now.psbt).Err? then Err(Unsignable)
        else if e.txid(UnsignedTransaction(now.psbt).value) != m.txid.value then Err(WrongTransaction)
        else Ok((now.(stage := Done, txid := m.txid), SeenDone(m.txid.value)))
  }

  predicate NotForMe(r: Record, m: Message)
  { m.session != r.session || m.from == r.me || (r.peer.Some? && r.peer.value != m.from) || m.kind == ProposalKind }

  function Received(e: Env, r: Record, m: Message): Result<(Record, Outcome), Refusal>
  {
    if NotForMe(r, m) then Ok((r, Ignored))
    else if m.kind == UpdateKind then ReceivedUpdate(e, r, m)
    else ReceivedDone(e, r, m)
  }

  function FinalizedSession(e: Env, r: Record): Result<SignedTransaction, Refusal>
  { if r.stage == Proposing then Err(WrongStage) else Finalized(e, r.psbt) }

  function Finished(e: Env, r: Record, txid: nat): Result<Record, Refusal>
  {
    var signed := FinalizedSession(e, r);
    if signed.Err? then Err(signed.why)
    else if e.txid(signed.value.tx) != txid then Err(WrongTransaction)
    else Ok(r.(stage := Done, txid := Some(txid), outbox := r.outbox + [DoneMessage(r, txid)]))
  }

  // -------------------------------------------------------------------------
  // The code

  method FindMyInputs(mine: seq<OutPoint>, inputs: seq<Input>) returns (r: Option<set<nat>>)
    ensures r == MyInputs(mine, inputs)
  {
    var indices: set<nat> := {};
    for k := 0 to |mine|
      invariant forall j :: 0 <= j < k ==> PositionOfCoin(inputs, mine[j]).Some?
      invariant indices == set j | 0 <= j < k :: PositionOfCoin(inputs, mine[j]).value
    {
      var index := PositionOfCoin(inputs, mine[k]);
      if index.None? { return None; }
      indices := indices + {index.value};
    }
    assert indices == MyInputs(mine, inputs).value;
    return Some(indices);
  }

  method FindOwnCoins(inputs: seq<Input>, theirs: seq<OutPoint>) returns (mine: seq<OutPoint>)
    ensures mine == OwnCoins(inputs, theirs)
  {
    mine := [];
    for i := 0 to |inputs|
      invariant mine == OwnCoins(inputs[..i], theirs)
    {
      assert inputs[..i + 1][..i] == inputs[..i];
      if inputs[i].fact.coin !in theirs { mine := mine + [inputs[i].fact.coin]; }
    }
    assert inputs[..|inputs|] == inputs;
  }

  class Session {
    var session: nat
    var role: Role
    var me: nat
    var peer: Option<nat>
    var to: Address
    var sats: nat
    var feeRate: nat
    var stage: Stage
    var newest: Newest
    var psbt: Psbt
    var mine: seq<OutPoint>
    var visits: nat
    var outbox: seq<Message>
    var txid: Option<nat>

    function Snapshot(): Record
      reads this
    { Record(session, role, me, peer, to, sats, feeRate, stage, newest, psbt, mine, visits, outbox, txid) }

    constructor Of(r: Record)
      ensures Snapshot() == r
    {
      session, role, me, peer, to, sats, feeRate := r.session, r.role, r.me, r.peer, r.to, r.sats, r.feeRate;
      stage, newest, psbt, mine, visits, outbox, txid := r.stage, r.newest, r.psbt, r.mine, r.visits, r.outbox, r.txid;
    }

    static method Propose(e: Env, me: nat, session: nat, half: Half, to: Address, sats: nat, feeRate: nat)
      returns (r: Result<Session, Refusal>)
      ensures match ProposedSession(e, me, session, half, to, sats, feeRate)
        case Ok(record) => r.Ok? && fresh(r.value) && r.value.Snapshot() == record
        case Err(why) => r == Err(why)
    {
      var psbt := Proposed(e, half, to, sats, feeRate);
      if psbt.Err? { return Err(psbt.why); }
      var created := new Session.Of(
        Record(session, Start, me, None, to, sats, feeRate, Proposing, Mine, psbt.value,
               Coins(psbt.value), 0, [], None));
      created.outbox := created.outbox + [ProposalMessage(created.Snapshot())];
      return Ok(created);
    }

    static method JoinWith(e: Env, me: nat, proposal: Proposal, half: Half) returns (r: Result<Session, Refusal>)
      ensures match JoinedSession(e, me, proposal, half)
        case Ok(record) => r.Ok? && fresh(r.value) && r.value.Snapshot() == record
        case Err(why) => r == Err(why)
    {
      hide Joined, OwnCoins;
      var joined := JoinHalves(e, proposal, half);
      if joined.Err? { return Err(joined.why); }
      var mine := FindOwnCoins(joined.value.inputs, Coins(proposal.psbt));
      var created := new Session.Of(Record(proposal.session, Join, me, Some(proposal.from), proposal.to, proposal.sats,
        proposal.feeRate, Active, JustJoined, joined.value, mine, 0, [], None));
      return Ok(created);
    }

    method IsMyTurn() returns (r: Result<bool, Refusal>)
      ensures r == MyTurn(Snapshot())
    {
      if stage != Active || newest == Mine { return Ok(false); }
      var indices := FindMyInputs(mine, psbt.inputs);
      if indices.None? { return Err(MissingCoin); }
      return Ok(!(indices.value <= SignedInputs(psbt)));
    }

    method ThePass(e: Env) returns (r: Result<Pass, Refusal>)
      ensures r == NextPass(e, Snapshot())
    {
      var indices := FindMyInputs(mine, psbt.inputs);
      if indices.None? { return Err(MissingCoin); }
      var shares := CheckShares(e, psbt);
      if shares.Err? { return Err(BadShare); }
      WaitingIsMissing(psbt, shares.value, indices.value);
      if exists pair :: pair in shares.value.Missing() && pair.0 !in indices.value { return Ok(ShareOnlyPass); }
      return Ok(SignPass);
    }

    method Request() returns (r: Result<Psbt, Refusal>)
      ensures r == Requested(Snapshot())
    {
      if stage != Active { return Err(WrongStage); }
      var turn := IsMyTurn();
      if turn.Err? { return Err(turn.why); }
      if !turn.value { return Err(NotMyTurn); }
      var indices := FindMyInputs(mine, psbt.inputs);
      return Ok(SignerRequest(psbt, indices.value));
    }

    method Respond(e: Env, answer: Psbt) returns (r: Option<Refusal>)
      modifies this
      ensures match Responded(e, old(Snapshot()), answer)
        case Ok(next) => r.None? && Snapshot() == next
        case Err(why) => r == Some(why) && Snapshot() == old(Snapshot())
    {
      hide Absorbed, MyInputs, SignedInputs;
      var turn := IsMyTurn();
      if turn.Err? { return Some(turn.why); }
      if !turn.value { return Some(NotMyTurn); }
      var indices := FindMyInputs(mine, psbt.inputs);
      var next := AbsorbState(e, psbt, answer, Signer, indices.value);
      if next.Err? { return Some(next.why); }
      if next.value == psbt { return Some(NothingNew); }
      psbt := next.value;
      newest := Mine;
      visits := visits + 1;
      outbox := outbox + [UpdateMessage(Snapshot())];
      return None;
    }

    /** Apply a message to a copy, and keep the copy only if nothing was refused. */
    method Receive(e: Env, m: Message) returns (r: Result<Outcome, Refusal>)
      modifies this
      ensures match Received(e, old(Snapshot()), m)
        case Ok((next, outcome)) => r == Ok(outcome) && Snapshot() == next
        case Err(why) => r == Err(why) && Snapshot() == old(Snapshot())
    {
      hide Received, ReceivedUpdate, ReceivedDone;
      var trial := new Session.Of(Snapshot());
      r := trial.Apply(e, m);
      if r.Ok? { Become(trial.Snapshot()); }
    }

    method Become(r: Record)
      modifies this
      ensures Snapshot() == r
    {
      BecomeTerms(r);
      BecomeState(r);
    }

    method BecomeTerms(r: Record)
      modifies `session, `role, `me, `peer, `to, `sats, `feeRate
      ensures session == r.session && role == r.role && me == r.me && peer == r.peer
      ensures to == r.to && sats == r.sats && feeRate == r.feeRate
    { session, role, me, peer, to, sats, feeRate := r.session, r.role, r.me, r.peer, r.to, r.sats, r.feeRate; }

    method BecomeState(r: Record)
      modifies `stage, `newest, `psbt, `mine, `visits, `outbox, `txid
      ensures stage == r.stage && newest == r.newest && psbt == r.psbt && mine == r.mine
      ensures visits == r.visits && outbox == r.outbox && txid == r.txid
    { stage, newest, psbt, mine, visits, outbox, txid :=
      r.stage, r.newest, r.psbt, r.mine, r.visits, r.outbox, r.txid; }

    method Apply(e: Env, m: Message) returns (r: Result<Outcome, Refusal>)
      modifies this
      ensures match Received(e, old(Snapshot()), m)
        case Ok((next, outcome)) => r == Ok(outcome) && Snapshot() == next
        case Err(why) => r == Err(why)
    {
      if m.session != session { return Ok(Ignored); }
      if m.from == me { return Ok(Ignored); }
      if peer.Some? && peer.value != m.from { return Ok(Ignored); }
      match m.kind
      case ProposalKind => return Ok(Ignored);
      case UpdateKind => r := ReceiveUpdate(e, m);
      case DoneKind => r := ReceiveDone(e, m);
    }

    method ReceiveUpdate(e: Env, m: Message) returns (r: Result<Outcome, Refusal>)
      modifies this
      ensures match ReceivedUpdate(e, old(Snapshot()), m)
        case Ok((next, outcome)) => r == Ok(outcome) && Snapshot() == next
        case Err(why) => r == Err(why)
    {
      hide Adopted, Absorbed;
      if stage == Done { return Ok(Ignored); }
      if m.psbt.None? { return Err(Malformed); }
      var state := psbt;
      if stage == Proposing {
        var adopted := AdoptJoin(e, state, m.psbt.value, feeRate);
        if adopted.Err? { return Err(adopted.why); }
        state := adopted.value;
      }
      var indices := FindMyInputs(mine, state.inputs);
      if indices.None? { return Err(MissingCoin); }
      var next := AbsorbState(e, state, m.psbt.value, Peer, indices.value);
      if next.Err? { return Err(next.why); }
      if stage == Active && next.value == state { return Ok(Ignored); }
      psbt := next.value;
      stage := Active;
      newest := Theirs;
      peer := Some(m.from);
      return Ok(Applied);
    }

    method ReceiveDone(e: Env, m: Message) returns (r: Result<Outcome, Refusal>)
      modifies this
      ensures match ReceivedDone(e, old(Snapshot()), m)
        case Ok((next, outcome)) => r == Ok(outcome) && Snapshot() == next
        case Err(why) => r == Err(why)
    {
      if m.txid.None? { return Err(Malformed); }
      if stage == Done {
        if txid == m.txid { return Ok(Ignored); }
        return Err(WrongTransaction);
      }
      if stage == Proposing { return Err(WrongStage); }
      if m.psbt.Some? {
        var updated := ReceiveUpdate(e, m);
        if updated.Err? { return updated; }
      }
      var tx := UnsignedTransaction(psbt);
      if tx.Err? { return Err(Unsignable); }
      if e.txid(tx.value) != m.txid.value { return Err(WrongTransaction); }
      stage := Done;
      txid := m.txid;
      return Ok(SeenDone(m.txid.value));
    }

    method FinalizeIt(e: Env) returns (r: Result<SignedTransaction, Refusal>)
      ensures r == FinalizedSession(e, Snapshot())
    {
      if stage == Proposing { return Err(WrongStage); }
      r := FinalizeState(e, psbt);
    }

    method Finish(e: Env, id: nat) returns (r: Option<Refusal>)
      modifies this
      ensures match Finished(e, old(Snapshot()), id)
        case Ok(next) => r.None? && Snapshot() == next
        case Err(why) => r == Some(why) && Snapshot() == old(Snapshot())
    {
      var signed := FinalizeIt(e);
      if signed.Err? { return Some(signed.why); }
      if e.txid(signed.value.tx) != id { return Some(WrongTransaction); }
      stage := Done;
      txid := Some(id);
      outbox := outbox + [DoneMessage(Snapshot(), id)];
      return None;
    }
  }

  lemma WaitingIsMissing(p: Psbt, shares: Shares, mine: set<nat>)
    requires Describes(shares, p)
    ensures Waiting(p, mine) <==> exists pair :: pair in shares.Missing() && pair.0 !in mine
  { }
}
