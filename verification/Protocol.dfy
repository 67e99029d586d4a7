/** Two wallets and the channel between them, which may delay, duplicate, reorder
  * and lose what it carries. */
module Protocol {
  import opened Wrappers
  import opened Chain
  import opened PsbtV2
  import opened Shares
  import opened Absorb
  import opened Soundness
  import opened Laws
  import opened Fees
  import opened Building
  import opened Joining
  import opened Finishing
  import opened SharedSession
  import opened Safety

  // -------------------------------------------------------------------------
  // The system

  /** The two sessions, and every message either has ever put in its outbox. A
    * message still waiting there is one the channel has delayed. */
  datatype System = System(a: Record, b: Record, sent: set<Message>)

  datatype Move =
    | Deliver(toA: bool, message: Message)
    | Visit(byA: bool, response: Psbt)
    | Broadcast(byA: bool)

  function Side(s: System, isA: bool): Record { if isA then s.a else s.b }

  function Posted(s: System, isA: bool, r: Record): System
  {
    var posted := r.(outbox := []);
    var sent := s.sent + set m | m in r.outbox;
    if isA then System(posted, s.b, sent) else System(s.a, posted, sent)
  }

  /** Deliver any message ever sent, show any answer, or broadcast when ready. */
  function Advance(e: Env, s: System, move: Move): System
  {
    match move
    case Deliver(toA, m) =>
      if m in s.sent then Posted(s, toA, After(e, Side(s, toA), Receive(m))) else s
    case Visit(byA, answer) => Posted(s, byA, After(e, Side(s, byA), Answer(answer)))
    case Broadcast(byA) =>
      var r := Side(s, byA);
      if Ready(r) && FinalizedSession(e, r).Ok?
      then Posted(s, byA, After(e, r, Finish(e.txid(FinalizedSession(e, r).value.tx)))) else s
  }

  function Execute(e: Env, s: System, moves: seq<Move>): System
  { if moves == [] then s else Advance(e, Execute(e, s, moves[..|moves| - 1]), moves[|moves| - 1]) }

  // -------------------------------------------------------------------------
  // The invariant: one side leads

  ghost predicate AdoptsTo(e: Env, r: Record, u: Psbt)
  { Adopted(e, r.psbt, u, r.feeRate).Ok? && Skeleton(Adopted(e, r.psbt, u, r.feeRate).value) == Skeleton(u) }

  /** The waiting proposer accepts any state of this transaction. */
  ghost predicate Adoptable(e: Env, r: Record, p: Psbt)
  { forall u :: Skeleton(u) == Skeleton(p) ==> AdoptsTo(e, r, u) }

  /** An update or news carries a sound state; news carries a finished one. */
  ghost predicate CarriesState(e: Env, m: Message)
  {
    && m.psbt.Some? && Sound(e, m.psbt.value)
    && (m.kind == DoneKind ==> AllSigned(m.psbt.value) && Recorded(e, m.psbt.value, m.txid))
  }

  /** A message from the side that leads is its current state or nothing new; one
    * from the other side is nothing new to either. */
  ghost predicate Placed(lead: Record, other: Record, m: Message)
    requires m.psbt.Some?
  {
    && Within(m.psbt.value, lead.psbt)
    && (m.from == other.me ==> other.stage != Proposing && Within(m.psbt.value, other.psbt))
    && (m.from == lead.me ==>
          m.psbt.value == lead.psbt || (other.stage != Proposing && Within(m.psbt.value, other.psbt)))
  }

  ghost predicate Known(e: Env, lead: Record, other: Record, m: Message)
  {
    && m.session == lead.session && (m.from == lead.me || m.from == other.me)
    && (m.kind == ProposalKind || (CarriesState(e, m) && Placed(lead, other, m)))
  }

  /** Both sides hold the same state, or nothing was sent since the join. */
  ghost predicate Level(lead: Record, other: Record, sent: set<Message>)
  { if other.stage == Proposing then forall m :: m in sent ==> m.kind == ProposalKind else other.psbt == lead.psbt }

  ghost predicate Pair(e: Env, mine: Origin, theirs: Origin, lead: Record, other: Record)
  {
    && lead.me != other.me && lead.session == other.session
    && Kept(e, mine, lead) && Kept(e, theirs, other)
    && (lead.peer.Some? ==> lead.peer.value == other.me) && (other.peer.Some? ==> other.peer.value == lead.me)
    && lead.stage != Proposing
  }

  ghost predicate Leads(e: Env, mine: Origin, theirs: Origin, lead: Record, other: Record, sent: set<Message>)
  {
    && Pair(e, mine, theirs, lead, other)
    && (other.stage == Active ==> other.newest == Mine)
    && (other.stage == Proposing ==> Adoptable(e, other, lead.psbt))
    && (other.stage != Proposing ==> Within(other.psbt, lead.psbt))
    && (lead.stage == Active && lead.newest != Mine ==> Level(lead, other, sent))
    && (forall m :: m in sent ==> Known(e, lead, other, m))
  }

  ghost predicate Consistent(e: Env, oa: Origin, ob: Origin, s: System)
  { Leads(e, oa, ob, s.a, s.b, s.sent) || Leads(e, ob, oa, s.b, s.a, s.sent) }

  // -------------------------------------------------------------------------
  // What one message does

  /** A state ordered with this side's own is ignored or taken in whole. */
  lemma OrderedUpdate(e: Env, o: Origin, r: Record, m: Message, larger: Psbt)
    requires Kept(e, o, r) && r.stage == Active && m.psbt.Some? && Sound(e, m.psbt.value)
    requires Larger(r.psbt, m.psbt.value, larger)
    ensures ReceivedUpdate(e, r, m) == Ok(
      if larger == r.psbt then (r, Ignored)
      else (r.(psbt := larger, newest := Theirs, peer := Some(m.from)), Applied))
  {
    hide Absorbed, MyInputs, Sound;
    SoundUnlessProposing(e, o, r);
    TurnIsKnown(e, o, r);
    AbsorbOfOrdered(e, r.psbt, m.psbt.value, larger, MyInputs(r.mine, r.psbt.inputs).value);
  }

  lemma CleanIsWithin(e: Env, p: Psbt, q: Psbt)
    requires Clean(e, p) && Skeleton(p) == Skeleton(q)
    ensures Within(p, q)
  { }

  /** The first update a proposer gets is taken in whole. */
  lemma FirstUpdate(e: Env, o: Origin, r: Record, m: Message)
    requires Kept(e, o, r) && r.stage == Proposing && m.psbt.Some? && Sound(e, m.psbt.value)
    requires AdoptsTo(e, r, m.psbt.value)
    ensures ReceivedUpdate(e, r, m) == Ok((r.(psbt := m.psbt.value, stage := Active,
          newest := Theirs, peer := Some(m.from)), Applied))
  {
    hide Absorbed, Adopted, MyInputs, Sound, Clean, Standing;
    var state := Adopted(e, r.psbt, m.psbt.value, r.feeRate).value;
    assert HoldsOrigin(o, r.psbt) && Clean(e, r.psbt);
    AdoptedIsSound(e, r.psbt, m.psbt.value, r.feeRate);
    AdoptStands(e, o, r.psbt, m.psbt.value, r.feeRate);
    var adopted := r.(psbt := state, stage := Active);
    TurnIsKnown(e, o, adopted);
    CleanIsWithin(e, state, m.psbt.value);
    AbsorbOfOrdered(e, state, m.psbt.value, m.psbt.value, MyInputs(r.mine, state.inputs).value);
  }

  /** News of the broadcast is believed, and records the transaction both hold. */
  lemma OrderedDone(e: Env, o: Origin, r: Record, m: Message, larger: Psbt)
    requires Kept(e, o, r) && r.stage == Active && m.kind == DoneKind && CarriesState(e, m)
    requires Larger(r.psbt, m.psbt.value, larger)
    ensures ReceivedDone(e, r, m).Ok?
    ensures var next := ReceivedDone(e, r, m).value.0;
      && next == r.(psbt := larger, stage := Done, txid := m.txid, newest := next.newest, peer := next.peer)
      && (next.peer == r.peer || next.peer == Some(m.from))
  {
    hide Sound, UnsignedTransaction, ReceivedUpdate, Kept;
    OrderedUpdate(e, o, r, m, larger);
    WithinLarger(m.psbt.value, r.psbt, larger);
    TransactionIsFixed(m.psbt.value, larger);
  }

  /** A finished state is the largest there is. */
  lemma NothingAboveSigned(e: Env, p: Psbt, q: Psbt)
    requires Sound(e, p) && Sound(e, q) && Within(p, q) && AllSigned(p) && p.inputs != []
    ensures p == q
  {
    hide ScriptAt, CheckInput, SignatureVerifies, Derivable;
    var tx := SignedIsUnsigned(e, p);
    forall o | 0 <= o < |p.outputs| && p.outputs[o].info.Some? ensures Completed(p, o) { ScriptIsThere(p, o); }
    assert MissingShares(p) == {};
    assert EmptyScripts(p) == {} by {
      forall o | 0 <= o < |p.outputs| ensures p.outputs[o].script != NO_SCRIPT { ScriptIsThere(p, o); }
    }
    assert UnsignedInputs(p) == {};
    if p != q { GrowingIsProgress(e, p, q); }
  }

  // -------------------------------------------------------------------------
  // One move at a time

  /** What a received message can do to a session, when all it carries is known. */
  lemma KnownDelivery(e: Env, o: Origin, r: Record, m: Message, larger: Psbt)
    requires Kept(e, o, r) && r.stage != Proposing && !NotForMe(r, m) && CarriesState(e, m)
    requires Larger(r.psbt, m.psbt.value, larger)
    ensures var next := After(e, r, Receive(m));
      next == r || (r.stage == Active && next == r.(psbt := larger,
                            stage := next.stage, newest := next.newest, peer := next.peer, txid := next.txid)
        && next.stage != Proposing && (next.peer == r.peer || next.peer == Some(m.from))
        && (next.stage == Active ==> next.newest == Theirs && larger != r.psbt))
  {
    hide ReceivedUpdate, ReceivedDone, Kept, Sound, Larger, AllSigned, Recorded;
    if r.stage == Active {
      OrderedUpdate(e, o, r, m, larger);
      if m.kind == DoneKind { OrderedDone(e, o, r, m, larger); }
    } else {
      DoneStays(e, r, m);
    }
  }

  lemma DoneStays(e: Env, r: Record, m: Message)
    requires r.stage == Done
    ensures After(e, r, Receive(m)) == r
  { }

  /** A message to the side that leads changes nothing but, at most, marks it done. */
  lemma DeliverToLead(e: Env, mine: Origin, theirs: Origin, lead: Record, other: Record, sent: set<Message>, m: Message)
    requires Leads(e, mine, theirs, lead, other, sent) && m in sent
    ensures Leads(e, mine, theirs, After(e, lead, Receive(m)), other, sent)
    ensures After(e, lead, Receive(m)).outbox == lead.outbox
  {
    hide Kept, Sound, CarriesState, Adoptable;
    assert Known(e, lead, other, m);
    if !NotForMe(lead, m) {
      assert m.from == other.me && m.kind != ProposalKind;
      EventKeeps(e, mine, lead, Receive(m));
      KnownDelivery(e, mine, lead, m, lead.psbt);
    }
  }

  /** A message to the other side brings it level, or changes nothing. */
  lemma DeliverToOther(e: Env, mine: Origin, theirs: Origin, lead: Record, other: Record, sent: set<Message>,
                       m: Message)
    requires Leads(e, mine, theirs, lead, other, sent) && m in sent
    ensures var next := After(e, other, Receive(m));
      && next.outbox == other.outbox
      && (Leads(e, mine, theirs, lead, next, sent) || Leads(e, theirs, mine, next, lead, sent))
  {
    hide Kept, Sound, AllSigned, Recorded, Adoptable;
    assert Known(e, lead, other, m);
    if !NotForMe(other, m) {
      assert m.from == lead.me && m.kind != ProposalKind;
      var next := After(e, other, Receive(m));
      EventKeeps(e, theirs, other, Receive(m));
      if other.stage == Proposing {
        FirstDelivery(e, theirs, lead, other, m);
        if next != other { TakesTheLead(e, mine, theirs, lead, other, next, sent, m); }
      } else if Within(m.psbt.value, other.psbt) {
        KnownDelivery(e, theirs, other, m, other.psbt);
        StaysBehind(e, mine, theirs, lead, other, next, sent);
      } else {
        KnownDelivery(e, theirs, other, m, lead.psbt);
        if next.stage == Active && next != other {
          TakesTheLead(e, mine, theirs, lead, other, next, sent, m);
        } else {
          StaysBehind(e, mine, theirs, lead, other, next, sent);
        }
      }
    }
  }

  /** A proposer that gets the leader's state holds it, or refuses early news. */
  lemma FirstDelivery(e: Env, o: Origin, lead: Record, other: Record, m: Message)
    requires Kept(e, o, other) && other.stage == Proposing && !NotForMe(other, m)
    requires CarriesState(e, m) && m.psbt.value == lead.psbt && Adoptable(e, other, lead.psbt)
    ensures var next := After(e, other, Receive(m));
      next == other || next == other.(psbt := lead.psbt, stage := Active, newest := Theirs, peer := Some(m.from))
  {
    hide ReceivedUpdate, Kept, Sound, AllSigned, Recorded;
    assert AdoptsTo(e, other, m.psbt.value);
    FirstUpdate(e, o, other, m);
  }

  lemma TakesTheLead(e: Env, mine: Origin, theirs: Origin, lead: Record, other: Record, next: Record,
                     sent: set<Message>, m: Message)
    requires Leads(e, mine, theirs, lead, other, sent) && m in sent && m.kind != ProposalKind
    requires Kept(e, theirs, next) && next.me == other.me && next.session == other.session
    requires next.peer.Some? ==> next.peer.value == lead.me
    requires next.psbt == lead.psbt && next.stage == Active && next.newest == Theirs
    requires other.stage == Proposing || other.psbt != lead.psbt
    ensures Leads(e, theirs, mine, next, lead, sent)
  {
    hide Kept, Sound, CarriesState, Adoptable;
    WithinReflexive(lead.psbt);
    forall n | n in sent ensures Known(e, next, lead, n) { assert Known(e, lead, other, n); }
  }

  lemma StaysBehind(e: Env, mine: Origin, theirs: Origin, lead: Record, other: Record, next: Record, sent: set<Message>)
    requires Leads(e, mine, theirs, lead, other, sent) && other.stage != Proposing
    requires Kept(e, theirs, next) && next.me == other.me && next.session == other.session
    requires next.peer.Some? ==> next.peer.value == lead.me
    requires next.stage != Proposing && (next == other || next.stage == Done)
    requires next.psbt == other.psbt || next.psbt == lead.psbt
    ensures Leads(e, mine, theirs, lead, next, sent)
  {
    hide Kept, Sound, CarriesState, Adoptable;
    WithinReflexive(lead.psbt);
    forall n | n in sent ensures Known(e, lead, next, n) { assert Known(e, lead, other, n); }
  }

  /** Only the side that leads can visit its signer, and what it then sends is its
    * new state. */
  lemma VisitByLead(e: Env, mine: Origin, theirs: Origin, lead: Record, other: Record, sent: set<Message>, answer: Psbt)
    requires Leads(e, mine, theirs, lead, other, sent) && Responded(e, lead, answer).Ok? && lead.outbox == []
    ensures var next := Responded(e, lead, answer).value;
      Leads(e, mine, theirs, next.(outbox := []), other, sent + {UpdateMessage(next)})
        && next.outbox == [UpdateMessage(next)]
  {
    hide Leads, Responded;
    var next := Responded(e, lead, answer).value;
    LeadIsKeptToo(e, mine, theirs, lead, other, sent);
    VisitGrows(e, mine, lead, answer);
    OutboxIsFree(e, mine, next);
    LeadGrows(e, mine, theirs, lead, other, sent, next.(outbox := []));
  }

  lemma LeadIsKeptToo(e: Env, mine: Origin, theirs: Origin, lead: Record, other: Record, sent: set<Message>)
    requires Leads(e, mine, theirs, lead, other, sent)
    ensures Kept(e, mine, lead)
  { }

  /** An accepted answer makes the state larger and the session wait. */
  lemma VisitGrows(e: Env, o: Origin, r: Record, answer: Psbt)
    requires Kept(e, o, r) && Responded(e, r, answer).Ok? && r.outbox == []
    ensures var next := Responded(e, r, answer).value;
      && Kept(e, o, next) && Within(r.psbt, next.psbt) && r.stage == Active && r.newest != Mine
      && next == r.(psbt := next.psbt, newest := Mine, visits := r.visits + 1, outbox := [UpdateMessage(next)])
      && UpdateMessage(next) == UpdateMessage(next.(outbox := []))
  {
    hide Kept, Sound, MyInputs, Absorbed, Missing, Within, SignedInputs, AllSharesOk;
    RespondKeeps(e, o, r, answer);
    SoundUnlessProposing(e, o, r);
    SoundHasShares(e, r.psbt);
    AbsorbGrows(e, r.psbt, answer, Signer, MyInputs(r.mine, r.psbt.inputs).value);
  }

  lemma SoundHasShares(e: Env, p: Psbt)
    requires Sound(e, p)
    ensures AllSharesOk(e, p)
  { }

  lemma LeadGrows(e: Env, mine: Origin, theirs: Origin, lead: Record, other: Record, sent: set<Message>, next: Record)
    requires Leads(e, mine, theirs, lead, other, sent) && lead.stage == Active && lead.newest != Mine
    requires Kept(e, mine, next) && Within(lead.psbt, next.psbt)
    requires next == lead.(psbt := next.psbt, newest := Mine, visits := next.visits)
    ensures Leads(e, mine, theirs, next, other, sent + {UpdateMessage(next)})
  {
    hide Kept, Sound, Adoptable, AllSigned, Recorded;
    SoundUnlessProposing(e, mine, next);
    if other.stage == Proposing { StillAdoptable(e, other, lead.psbt, next.psbt); }
    WithinReflexive(next.psbt);
    forall n | n in sent + {UpdateMessage(next)} ensures Known(e, next, other, n) {
      if n in sent {
        assert Known(e, lead, other, n);
        if n.kind != ProposalKind { WithinTransitive(n.psbt.value, lead.psbt, next.psbt); }
      }
    }
    if other.stage != Proposing { WithinTransitive(other.psbt, lead.psbt, next.psbt); }
  }

  lemma OutboxIsFree(e: Env, o: Origin, r: Record)
    requires Kept(e, o, r)
    ensures Kept(e, o, r.(outbox := []))
  { }

  lemma StillAdoptable(e: Env, other: Record, p: Psbt, q: Psbt)
    requires Adoptable(e, other, p) && Skeleton(p) == Skeleton(q)
    ensures Adoptable(e, other, q)
  {
    forall u | Skeleton(u) == Skeleton(q) ensures AdoptsTo(e, other, u) { }
  }

  lemma OtherMayNotVisit(e: Env, mine: Origin, theirs: Origin, lead: Record, other: Record, sent: set<Message>,
                         answer: Psbt)
    requires Leads(e, mine, theirs, lead, other, sent)
    ensures MyTurn(other) == Ok(false) && After(e, other, Answer(answer)) == other
  {
    hide Kept, Adoptable;
  }

  /** A ready session, finished with its own transaction. */
  lemma BroadcastIs(e: Env, o: Origin, r: Record)
    requires Kept(e, o, r) && Ready(r) && r.outbox == []
    ensures FinalizedSession(e, r).Ok?
    ensures var id := e.txid(FinalizedSession(e, r).value.tx);
      && After(e, r, Finish(id)) == r.(stage := Done, txid := Some(id), outbox := [DoneMessage(r, id)])
      && CarriesState(e, DoneMessage(r, id)) && AllSigned(r.psbt)
    ensures Kept(e, o, After(e, r, Finish(e.txid(FinalizedSession(e, r).value.tx))))
  {
    hide Sound, UnsignedTransaction, Finalized, Standing;
    ReadyCanFinish(e, o, r);
    FinalizedMeans(e, r.psbt);
    SoundUnlessProposing(e, o, r);
    EventKeeps(e, o, r, Finish(e.txid(FinalizedSession(e, r).value.tx)));
  }

  lemma BroadcastByLead(e: Env, mine: Origin, theirs: Origin, lead: Record, other: Record, sent: set<Message>, id: nat)
    requires Leads(e, mine, theirs, lead, other, sent) && Ready(lead) && lead.outbox == []
    requires FinalizedSession(e, lead).Ok? && id == e.txid(FinalizedSession(e, lead).value.tx)
    ensures Leads(e, mine, theirs, lead.(stage := Done, txid := Some(id)), other, sent + {DoneMessage(lead, id)})
  {
    hide Kept, Sound, CarriesState, Adoptable, FinalizedSession, After;
    BroadcastIs(e, mine, lead);
    var news, next := DoneMessage(lead, id), lead.(stage := Done, txid := Some(id));
    WithinReflexive(lead.psbt);
    OutboxIsFree(e, mine, next.(outbox := [news]));
    forall n | n in sent + {news} ensures Known(e, next, other, n) {
      if n in sent { assert Known(e, lead, other, n); }
    }
  }

  lemma BroadcastByOther(e: Env, mine: Origin, theirs: Origin, lead: Record, other: Record, sent: set<Message>, id: nat)
    requires Leads(e, mine, theirs, lead, other, sent) && Ready(other) && other.outbox == []
    requires FinalizedSession(e, other).Ok? && id == e.txid(FinalizedSession(e, other).value.tx)
    ensures Leads(e, mine, theirs, lead, other.(stage := Done, txid := Some(id)), sent + {DoneMessage(other, id)})
  {
    hide Kept, Sound, CarriesState, Adoptable, FinalizedSession, After;
    BroadcastIs(e, theirs, other);
    var news, next := DoneMessage(other, id), other.(stage := Done, txid := Some(id));
    WithinReflexive(other.psbt);
    OutboxIsFree(e, theirs, next.(outbox := [news]));
    forall n | n in sent + {news} ensures Known(e, lead, next, n) {
      if n in sent { assert Known(e, lead, other, n); }
    }
  }

  // -------------------------------------------------------------------------
  // Every run of the two

  ghost predicate Sides(e: Env, oa: Origin, ob: Origin, s: System)
  { Consistent(e, oa, ob, s) && s.a.outbox == [] && s.b.outbox == [] }

  lemma NothingToPost(s: System, isA: bool, r: Record)
    requires r.outbox == []
    ensures Posted(s, isA, r) == if isA then s.(a := r) else s.(b := r)
  { }

  lemma OneToPost(s: System, isA: bool, r: Record, m: Message)
    requires r.outbox == [m]
    ensures Posted(s, isA, r) == if isA then System(r.(outbox := []), s.b, s.sent + {m})
      else System(s.a, r.(outbox := []), s.sent + {m})
  { }

  lemma DeliverKeeps(e: Env, oa: Origin, ob: Origin, s: System, toA: bool, m: Message)
    requires Sides(e, oa, ob, s)
    ensures Sides(e, oa, ob, Advance(e, s, Deliver(toA, m)))
  {
    hide Leads, After;
    if m in s.sent {
      if Leads(e, oa, ob, s.a, s.b, s.sent) {
        if toA {
          DeliverToLead(e, oa, ob, s.a, s.b, s.sent, m);
        } else {
          DeliverToOther(e, oa, ob, s.a, s.b, s.sent, m);
        }
      } else {
        if toA {
          DeliverToOther(e, ob, oa, s.b, s.a, s.sent, m);
        } else {
          DeliverToLead(e, ob, oa, s.b, s.a, s.sent, m);
        }
      }
      NothingToPost(s, toA, After(e, Side(s, toA), Receive(m)));
    }
  }

  lemma VisitKeeps(e: Env, oa: Origin, ob: Origin, s: System, byA: bool, answer: Psbt)
    requires Sides(e, oa, ob, s)
    ensures Sides(e, oa, ob, Advance(e, s, Visit(byA, answer)))
  {
    hide Leads, Responded;
    var r := Side(s, byA);
    if Responded(e, r, answer).Ok? {
      var next := Responded(e, r, answer).value;
      assert After(e, r, Answer(answer)) == next;
      if Leads(e, oa, ob, s.a, s.b, s.sent) {
        if byA {
          VisitByLead(e, oa, ob, s.a, s.b, s.sent, answer);
        } else {
          RefusesTheOther(e, oa, ob, s.a, s.b, s.sent, answer);
        }
      } else {
        if byA {
          RefusesTheOther(e, ob, oa, s.b, s.a, s.sent, answer);
        } else {
          VisitByLead(e, ob, oa, s.b, s.a, s.sent, answer);
        }
      }
      OneToPost(s, byA, next, UpdateMessage(next));
    } else {
      NothingToPost(s, byA, r);
    }
  }

  lemma RefusesTheOther(e: Env, mine: Origin, theirs: Origin, lead: Record, other: Record, sent: set<Message>,
                        answer: Psbt)
    requires Leads(e, mine, theirs, lead, other, sent)
    ensures Responded(e, other, answer).Err?
  { OtherMayNotVisit(e, mine, theirs, lead, other, sent, answer); }

  lemma BroadcastKeeps(e: Env, oa: Origin, ob: Origin, s: System, byA: bool)
    requires Sides(e, oa, ob, s)
    ensures Sides(e, oa, ob, Advance(e, s, Broadcast(byA)))
  {
    hide Leads, After, FinalizedSession, Ready, Kept, CarriesState;
    var r := Side(s, byA);
    if Ready(r) && FinalizedSession(e, r).Ok? {
      var id := e.txid(FinalizedSession(e, r).value.tx);
      var leadA := Leads(e, oa, ob, s.a, s.b, s.sent);
      BothKept(e, oa, ob, s);
      BroadcastIs(e, if byA then oa else ob, r);
      OneToPost(s, byA, After(e, r, Finish(id)), DoneMessage(r, id));
      if leadA {
        if byA {
          BroadcastByLead(e, oa, ob, s.a, s.b, s.sent, id);
        } else {
          BroadcastByOther(e, oa, ob, s.a, s.b, s.sent, id);
        }
      } else {
        if byA {
          BroadcastByOther(e, ob, oa, s.b, s.a, s.sent, id);
        } else {
          BroadcastByLead(e, ob, oa, s.b, s.a, s.sent, id);
        }
      }
    }
  }

  lemma BothKept(e: Env, oa: Origin, ob: Origin, s: System)
    requires Sides(e, oa, ob, s)
    ensures Kept(e, oa, s.a) && Kept(e, ob, s.b)
  { }

  lemma {:induction false} EveryExecutionKeeps(e: Env, oa: Origin, ob: Origin, s: System, moves: seq<Move>)
    requires Sides(e, oa, ob, s)
    ensures Sides(e, oa, ob, Execute(e, s, moves))
  {
    hide Sides, Advance;
    if moves != [] {
      var before := Execute(e, s, moves[..|moves| - 1]);
      EveryExecutionKeeps(e, oa, ob, s, moves[..|moves| - 1]);
      match moves[|moves| - 1]
      case Deliver(toA, m) => DeliverKeeps(e, oa, ob, before, toA, m);
      case Visit(byA, answer) => VisitKeeps(e, oa, ob, before, byA, answer);
      case Broadcast(byA) => BroadcastKeeps(e, oa, ob, before, byA);
    }
  }

  // -------------------------------------------------------------------------
  // What follows

  /** Whatever the channel and the signers do, never do both sides have the turn. */
  lemma AtMostOneTurn(e: Env, oa: Origin, ob: Origin, s: System)
    requires Sides(e, oa, ob, s)
    ensures MyTurn(s.a) == Ok(false) || MyTurn(s.b) == Ok(false)
  { }

  /** Two finished transactions of one send are one transaction. */
  lemma OneTransaction(e: Env, oa: Origin, ob: Origin, s: System)
    requires Sides(e, oa, ob, s) && s.a.stage != Proposing && s.b.stage != Proposing
    ensures FinalizedSession(e, s.a).Ok? && FinalizedSession(e, s.b).Ok? ==>
      FinalizedSession(e, s.a).value.tx == FinalizedSession(e, s.b).value.tx
    ensures s.a.stage == Done && s.b.stage == Done ==> s.a.txid == s.b.txid && s.a.txid.Some?
  {
    hide Adoptable, Known, Standing, UnsignedTransaction, Finalized;
    if FinalizedSession(e, s.a).Ok? { FinalizedMeans(e, s.a.psbt); }
    if FinalizedSession(e, s.b).Ok? { FinalizedMeans(e, s.b.psbt); }
    if Within(s.a.psbt, s.b.psbt) && UnsignedTransaction(s.a.psbt).Ok? { TransactionIsFixed(s.a.psbt, s.b.psbt); }
    if Within(s.b.psbt, s.a.psbt) && UnsignedTransaction(s.b.psbt).Ok? { TransactionIsFixed(s.b.psbt, s.a.psbt); }
  }

  // -------------------------------------------------------------------------
  // Where the two start

  /** What both wallets were given when they met. */
  datatype Meeting = Meeting(a: Record, proposal: Proposal, halfA: Half, halfB: Half, meB: nat)

  ghost predicate Met(e: Env, w: Meeting)
  {
    && ProposedSession(e, w.a.me, w.a.session, w.halfA, w.a.to, w.a.sats, w.a.feeRate) == Ok(w.a)
    && ReadProposal(e, ProposalMessage(w.a), w.meB) == Ok(w.proposal)
    && JoinedSession(e, w.meB, w.proposal, w.halfB).Ok? && HasScripts(w.halfB)
  }

  ghost function StartOf(e: Env, w: Meeting): System
    requires Met(e, w)
  { System(w.a.(outbox := []), JoinedSession(e, w.meB, w.proposal, w.halfB).value, {ProposalMessage(w.a)}) }

  ghost function OriginA(e: Env, w: Meeting): Origin
    requires Met(e, w)
  {
    ProposingIsKept(e, w.a.me, w.a.session, w.halfA, w.a.to, w.a.sats, w.a.feeRate);
    OriginOf(e, w.halfA, w.a.to, w.a.sats, Start, w.a.feeRate)
  }

  ghost function OriginB(e: Env, w: Meeting): Origin
    requires Met(e, w)
  {
    ReadProposalChecks(e, ProposalMessage(w.a), w.meB);
    JoiningIsKept(e, w.meB, w.proposal, w.halfB);
    OriginOf(e, w.halfB, w.proposal.to, w.proposal.sats, Join, w.proposal.feeRate)
  }

  lemma MeetingIsKept(e: Env, w: Meeting)
    requires Met(e, w)
    ensures var s := StartOf(e, w);
      && Kept(e, OriginA(e, w), s.a) && Kept(e, OriginB(e, w), s.b) && CheckedProposal(e, w.proposal)
      && w.proposal.psbt == w.a.psbt && w.proposal.feeRate == w.a.feeRate && Clean(e, w.a.psbt)
      && w.proposal.session == w.a.session && w.proposal.from == w.a.me != w.meB
  {
    hide Kept, Clean, HalfAsV2, CheckedProposal, Joined;
    ProposingIsKept(e, w.a.me, w.a.session, w.halfA, w.a.to, w.a.sats, w.a.feeRate);
    OutboxIsFree(e, OriginA(e, w), w.a);
    ProposedIsClean(e, w.halfA, w.a.to, w.a.sats, w.a.feeRate);
    ReadProposalChecks(e, ProposalMessage(w.a), w.meB);
    ProposalArrivesWhole(e, ProposalMessage(w.a), w.meB);
    JoiningIsKept(e, w.meB, w.proposal, w.halfB);
  }

  /** Right after the join, wallet B leads, and wallet A will accept whatever state
    * of this transaction it is sent. */
  lemma MeetingIsConsistent(e: Env, w: Meeting)
    requires Met(e, w)
    ensures Sides(e, OriginA(e, w), OriginB(e, w), StartOf(e, w))
  {
    hide Kept, Clean, CheckedProposal, Joined, ReadProposal, ProposedSession, AdoptsTo, OriginA, OriginB;
    var s := StartOf(e, w);
    MeetingIsKept(e, w);
    assert s.b.psbt == Joined(e, w.proposal, w.halfB).value;
    ProposedStage(e, w);
    forall u | Skeleton(u) == Skeleton(s.b.psbt) ensures AdoptsTo(e, s.a, u) { MeetingAdopts(e, w, u); }
    assert Known(e, s.b, s.a, ProposalMessage(w.a));
    assert Adoptable(e, s.a, s.b.psbt);
    assert Leads(e, OriginB(e, w), OriginA(e, w), s.b, s.a, s.sent);
  }

  lemma ProposedStage(e: Env, w: Meeting)
    requires Met(e, w)
    ensures w.a.stage == Proposing && w.a.peer.None? && w.a.newest == Mine && w.a.visits == 0
  { }

  lemma MeetingAdopts(e: Env, w: Meeting, u: Psbt)
    requires Met(e, w) && Skeleton(u) == Skeleton(StartOf(e, w).b.psbt)
    ensures AdoptsTo(e, StartOf(e, w).a, u)
  {
    hide Kept, Clean, CheckedProposal, Joined, ReadProposal, ProposedSession, Adopted, Skeleton;
    MeetingIsKept(e, w);
    HonestJoinIsAdopted(e, w.proposal, w.halfB, u);
  }

  /** So in every run of two wallets that met, whatever the signers answer: one turn
    * at most, one transaction at most, and each wallet's own guarantees. */
  lemma EveryRunOfTwo(e: Env, w: Meeting, moves: seq<Move>)
    requires Met(e, w)
    ensures var s := Execute(e, StartOf(e, w), moves);
      && Sides(e, OriginA(e, w), OriginB(e, w), s)
      && Kept(e, OriginA(e, w), s.a) && Kept(e, OriginB(e, w), s.b)
      && (MyTurn(s.a) == Ok(false) || MyTurn(s.b) == Ok(false))
      && (s.a.stage == Done && s.b.stage == Done ==> s.a.txid == s.b.txid && s.a.txid.Some?)
  {
    hide Sides, Kept, Met, Execute;
    MeetingIsConsistent(e, w);
    var s := Execute(e, StartOf(e, w), moves);
    EveryExecutionKeeps(e, OriginA(e, w), OriginB(e, w), StartOf(e, w), moves);
    BothKept(e, OriginA(e, w), OriginB(e, w), s);
    AtMostOneTurn(e, OriginA(e, w), OriginB(e, w), s);
    if s.a.stage == Done && s.b.stage == Done { OneTransaction(e, OriginA(e, w), OriginB(e, w), s); }
  }
}
