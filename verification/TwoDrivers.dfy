/** Two drivers over their session files and the channel between them, killed and
  * restarted anywhere, make only the moves of the two-wallet protocol. */
module TwoDrivers {
  import opened Wrappers
  import opened Chain
  import opened PsbtV2
  import opened Soundness
  import opened Fees
  import opened Building
  import opened Joining
  import opened Finishing
  import opened SharedSession
  import opened Safety
  import opened Protocol
  import opened SharedFlow
  import opened Recovery
  import opened Completion

  // -------------------------------------------------------------------------
  // One driver, one step

  /** Everything this wallet has put out, sent or still owed. */
  function PutOut(w: World): set<Message>
  { (set m | m in w.sent) + if w.disk.session.Some? then Posts(w.disk.session.value) else {} }

  function Posts(r: Record): set<Message> { set m | m in r.outbox }

  /** What a step did to the session: nothing or a flush of its outbox, or one event. */
  datatype Effect = Idle | Acted(event: Event)

  /** Why a driver brings this event about. */
  ghost predicate MayHappen(e: Env, disk: Saved, r: Record, event: Event, c: Choices)
  {
    match event
    case Receive(m) => Some(m) in disk.inbox
    case Answer(a) => a in c.answers && MyTurn(r) == Ok(true)
    case Finish(id) => Ready(r) && FinalizedSession(e, r).Ok? && id == e.txid(FinalizedSession(e, r).value.tx)
    case Sent => false
  }

  ghost predicate WholeHas(e: Env, disk: Saved, whole: Whole, effect: Effect, c: Choices)
    requires disk.session.Some?
  {
    var r := disk.session.value;
    && whole.disk.session.Some? && var next := whole.disk.session.value;
    match effect
    case Idle => next == r || (next == r.(outbox := []) && whole.sent == r.outbox)
    case Acted(event) =>
      && r.outbox == [] && next == After(e, r, event) && whole.sent == []
      && MayHappen(e, disk, r, event, c)
  }

  lemma FirstTakenIsAnswer(e: Env, r: Record, answers: seq<Psbt>) returns (a: Psbt)
    requires FirstTaken(e, r, answers).Some?
    ensures a in answers && FirstTaken(e, r, answers).value == After(e, r, Answer(a))
  {
    hide Responded;
    if Responded(e, r, answers[0]).Ok? { return answers[0]; }
    a := FirstTakenIsAnswer(e, r, answers[1..]);
  }

  lemma WholeEffect(e: Env, me: nat, terms: Option<Terms>, disk: Saved, waited: bool, c: Choices)
    returns (effect: Effect)
    requires disk.session.Some?
    ensures WholeHas(e, disk, Step(e, me, terms, disk, waited, c), effect, c)
  {
    hide Received, Responded, FinalizedSession, Finished, FirstTaken, NextPass, MyTurn, Ready;
    var r := disk.session.value;
    effect := Idle;
    if Outbox(disk) == [] {
      if disk.inbox != [] {
        if disk.inbox[0].Some? { effect := Acted(Receive(disk.inbox[0].value)); }
      } else if r.stage != Done {
        if Ready(r) {
          if StepReady(e, disk, r, waited, c).disk.session != disk.session {
            effect := Acted(Finish(e.txid(FinalizedSession(e, r).value.tx)));
          }
        } else if MyTurn(r) == Ok(true) && StepVisit(e, disk, r, waited, c).disk.session != disk.session {
          var a := FirstTakenIsAnswer(e, r, c.answers);
          effect := Acted(Answer(a));
        }
      }
    }
  }

  /** The inbox holds nothing but what it held and what the channel handed over. */
  lemma StepInbox(e: Env, me: nat, terms: Option<Terms>, disk: Saved, waited: bool, c: Choices, text: Option<Message>)
    requires text in Step(e, me, terms, disk, waited, c).disk.inbox
    ensures text in disk.inbox || text in c.batch
  {
    hide Handled, FinalizedSession, Finished, FirstTaken, NextPass, MyTurn, Ready, NextInInbox;
    assert text in disk.inbox + c.batch ==> text in disk.inbox || text in c.batch;
  }

  /** One step of one driver, killed or not, as the other side sees it. */
  ghost predicate SideMoved(e: Env, w: World, effect: Effect, c: Choices, w2: World)
    requires w.disk.session.Some?
  {
    var r := w.disk.session.value;
    && w2.disk.session.Some? && var next := w2.disk.session.value;
    match effect
    case Idle => next.(outbox := []) == r.(outbox := []) && PutOut(w2) == PutOut(w)
    case Acted(event) =>
      && r.outbox == [] && next == After(e, r, event) && PutOut(w2) == PutOut(w) + Posts(next)
      && MayHappen(e, w.disk, r, event, c)
  }

  lemma SideMoves(e: Env, me: nat, terms: Option<Terms>, w: World, life: Life, w2: World) returns (effect: Effect)
    requires w.disk.session.Some? && SteppedBy(e, me, terms, w, life, w2)
    ensures SideMoved(e, w, effect, life.choices, w2)
    ensures forall text :: text in w2.disk.inbox ==> text in w.disk.inbox || text in life.choices.batch
  {
    hide Step, After, MyTurn, Ready, FinalizedSession;
    var before, c := Before(w, life), life.choices;
    var whole := Step(e, me, terms, w.disk, before.waited, c);
    OnlyTheOutboxIsSent(e, me, terms, w.disk, before.waited, c);
    effect := WholeEffect(e, me, terms, w.disk, before.waited, c);
    forall text | text in w2.disk.inbox ensures text in w.disk.inbox || text in c.batch {
      if w2.disk != w.disk { StepInbox(e, me, terms, w.disk, before.waited, c, text); }
    }
    forall m | m in w2.sent ensures m in w.sent || m in whole.sent { assert m in w.sent + whole.sent; }
    if w2.disk == w.disk {
      effect := Idle;
    } else {
      assert w2.sent == w.sent + whole.sent;
    }
  }

  // -------------------------------------------------------------------------
  // Two of them

  datatype Duo = Duo(a: World, b: World)

  /** Which driver steps. */
  datatype Turn = Turn(byA: bool, life: Life)

  /** Who the two are, and what each insists on before it joins. */
  datatype Names = Names(meA: nat, termsA: Option<Terms>, meB: nat, termsB: Option<Terms>)

  ghost predicate BothHaveOne(duo: Duo)
  { duo.a.disk.session.Some? && duo.b.disk.session.Some? }

  /** The protocol state the two files and the channel stand for. */
  ghost function Abstract(duo: Duo): System
    requires BothHaveOne(duo)
  {
    System(duo.a.disk.session.value.(outbox := []), duo.b.disk.session.value.(outbox := []),
           PutOut(duo.a) + PutOut(duo.b))
  }

  /** The channel loses, delays, repeats and reorders, and hands over nothing that
    * was not sent, apart from texts that are no message. */
  ghost predicate ChannelCarries(duo: Duo, batch: seq<Option<Message>>)
  { forall text :: text in batch && text.Some? ==> text.value in duo.a.sent || text.value in duo.b.sent }

  ghost predicate DuoStep(e: Env, n: Names, duo: Duo, turn: Turn, duo2: Duo)
  {
    && ChannelCarries(duo, turn.life.choices.batch)
    && if turn.byA then duo2.b == duo.b && SteppedBy(e, n.meA, n.termsA, duo.a, turn.life, duo2.a)
       else duo2.a == duo.a && SteppedBy(e, n.meB, n.termsB, duo.b, turn.life, duo2.b)
  }

  /** Whatever waits in an inbox was put out by one of the two. */
  ghost predicate InboxesOk(duo: Duo)
    requires BothHaveOne(duo)
  {
    forall text: Option<Message> :: text.Some? && (text in duo.a.disk.inbox || text in duo.b.disk.inbox) ==>
      text.value in Abstract(duo).sent
  }

  function MoveOf(byA: bool, event: Event): Option<Move>
  {
    match event
    case Receive(m) => Some(Deliver(byA, m))
    case Answer(a) => Some(Visit(byA, a))
    case Finish(_) => Some(Broadcast(byA))
    case Sent => None
  }

  /** One step of one of the two drivers is one move of the protocol, or none. */
  lemma DuoStepMoves(e: Env, n: Names, duo: Duo, turn: Turn, duo2: Duo) returns (move: Option<Move>)
    requires BothHaveOne(duo) && InboxesOk(duo) && DuoStep(e, n, duo, turn, duo2)
    ensures BothHaveOne(duo2) && InboxesOk(duo2)
    ensures Abstract(duo2) == if move.Some? then Advance(e, Abstract(duo), move.value) else Abstract(duo)
    ensures move.Some? && move.value.Visit? ==>
      && move.value.byA == turn.byA && move.value.response in turn.life.choices.answers
      && MyTurn(Side(Abstract(duo), turn.byA)) == Ok(true)
  {
    hide SteppedBy, After, MyTurn, Ready, FinalizedSession, PutOut;
    var w, w2 := if turn.byA then duo.a else duo.b, if turn.byA then duo2.a else duo2.b;
    var other := if turn.byA then duo.b else duo.a;
    var effect;
    if turn.byA { effect := SideMoves(e, n.meA, n.termsA, w, turn.life, w2); }
    else { effect := SideMoves(e, n.meB, n.termsB, w, turn.life, w2); }
    SentIsPutOut(duo);
    assert PutOut(w) <= PutOut(w2) && PutOut(other) == PutOut(if turn.byA then duo2.b else duo2.a);
    move := None;
    if effect.Acted? {
      move := MoveOf(turn.byA, effect.event);
      ActedAdvances(e, duo, turn.byA, effect.event, turn.life.choices, w2);
    }
  }

  lemma SentIsPutOut(duo: Duo)
    ensures forall m :: m in duo.a.sent ==> m in PutOut(duo.a)
    ensures forall m :: m in duo.b.sent ==> m in PutOut(duo.b)
  { }

  lemma ActedAdvances(e: Env, duo: Duo, byA: bool, event: Event, c: Choices, w2: World)
    requires BothHaveOne(duo) && InboxesOk(duo)
    requires var w := if byA then duo.a else duo.b;
      && w.disk.session.value.outbox == [] && w2.disk.session == Some(After(e, w.disk.session.value, event))
      && PutOut(w2) == PutOut(w) + Posts(w2.disk.session.value)
      && MayHappen(e, w.disk, w.disk.session.value, event, c)
    ensures var duo2 := if byA then Duo(w2, duo.b) else Duo(duo.a, w2);
      MoveOf(byA, event).Some? && Abstract(duo2) == Advance(e, Abstract(duo), MoveOf(byA, event).value)
  {
    hide After, Ready, FinalizedSession, PutOut;
    var s, r := Abstract(duo), if byA then duo.a.disk.session.value else duo.b.disk.session.value;
    assert Side(s, byA) == r by { assert r.(outbox := []) == r; }
    assert Advance(e, s, MoveOf(byA, event).value) == Posted(s, byA, After(e, r, event));
  }

  // -------------------------------------------------------------------------
  // Every run of two drivers

  ghost predicate DuoRun(e: Env, n: Names, duos: seq<Duo>, turns: seq<Turn>)
  {
    && |duos| == |turns| + 1
    && forall i :: 0 <= i < |turns| ==> DuoStep(e, n, duos[i], turns[i], duos[i + 1])
  }

  /** The device of the wallet that steps, if it is asked, answers honestly. */
  ghost predicate HonestTurn(e: Env, duo: Duo, turn: Turn)
  {
    BothHaveOne(duo) ==>
      forall a :: a in turn.life.choices.answers ==> Honest(e, Abstract(duo), Visit(turn.byA, a))
  }

  lemma ExecuteOneMore(e: Env, s: System, moves: seq<Move>, move: Move)
    ensures Execute(e, s, moves + [move]) == Advance(e, Execute(e, s, moves), move)
    ensures AllHonest(e, s, moves) && Honest(e, Execute(e, s, moves), move) ==> AllHonest(e, s, moves + [move])
  {
    hide Advance, Honest;
    assert (moves + [move])[..|moves|] == moves;
  }

  /** Whatever the two drivers do, however often they are killed, and whatever the
    * channel does, their files are where some run of the protocol leads. */
  lemma {:induction false} DriversRefine(e: Env, n: Names, duos: seq<Duo>, turns: seq<Turn>) returns (moves: seq<Move>)
    requires DuoRun(e, n, duos, turns) && BothHaveOne(duos[0]) && InboxesOk(duos[0])
    ensures |moves| <= |turns|
    ensures BothHaveOne(duos[|turns|]) && InboxesOk(duos[|turns|])
    ensures Abstract(duos[|turns|]) == Execute(e, Abstract(duos[0]), moves)
    ensures (forall i :: 0 <= i < |turns| ==> HonestTurn(e, duos[i], turns[i])) ==>
      AllHonest(e, Abstract(duos[0]), moves)
  {
    hide DuoStep, InboxesOk, Abstract, HonestTurn, Advance, Honest;
    if turns == [] {
      moves := [];
    } else {
      var k := |turns| - 1;
      assert DuoRun(e, n, duos[..k + 1], turns[..k]);
      moves := DriversRefine(e, n, duos[..k + 1], turns[..k]);
      assert (forall i :: 0 <= i < |turns| ==> HonestTurn(e, duos[i], turns[i])) ==>
        forall i :: 0 <= i < k ==> HonestTurn(e, duos[..k + 1][i], turns[..k][i]);
      var move := DuoStepMoves(e, n, duos[k], turns[k], duos[k + 1]);
      if move.Some? {
        ExecuteOneMore(e, Abstract(duos[0]), moves, move.value);
        if HonestTurn(e, duos[k], turns[k]) { MoveIsHonest(e, duos[k], turns[k], move.value); }
        moves := moves + [move.value];
      }
    }
  }

  lemma MoveIsHonest(e: Env, duo: Duo, turn: Turn, move: Move)
    requires BothHaveOne(duo) && HonestTurn(e, duo, turn)
    requires move.Visit? ==> move.byA == turn.byA && move.response in turn.life.choices.answers
    ensures Honest(e, Abstract(duo), move)
  { hide MyTurn, Abstract; }

  lemma {:induction false} BothStayHealthy(e: Env, n: Names, duos: seq<Duo>, turns: seq<Turn>)
    requires DuoRun(e, n, duos, turns) && Healthy(e, duos[0].a) && Healthy(e, duos[0].b)
    ensures Healthy(e, duos[|turns|].a) && Healthy(e, duos[|turns|].b)
  {
    hide Healthy, Step, Stepped, ChannelCarries;
    if turns != [] {
      var k := |turns| - 1;
      assert DuoRun(e, n, duos[..k + 1], turns[..k]);
      BothStayHealthy(e, n, duos[..k + 1], turns[..k]);
      var life, w := turns[k].life, if turns[k].byA then duos[k].a else duos[k].b;
      WaitingIsNoMatter(e, w, Before(w, life));
      if turns[k].byA { SteppedIsHealthy(e, n.meA, n.termsA, Before(w, life), life.choices, duos[k + 1].a); }
      else { SteppedIsHealthy(e, n.meB, n.termsB, Before(w, life), life.choices, duos[k + 1].b); }
    }
  }

  /** The ids one side broadcast and the other side broadcast are one id. */
  lemma OneIdOfTwo(e: Env, oa: Origin, ob: Origin, duo: Duo, id: nat, again: nat)
    requires BothHaveOne(duo) && Sides(e, oa, ob, Abstract(duo)) && Healthy(e, duo.a) && Healthy(e, duo.b)
    requires id in duo.a.broadcasts + duo.b.broadcasts && again in duo.a.broadcasts + duo.b.broadcasts
    ensures id == again
  {
    hide KeptByOne, Kept, Adoptable, Known, Recorded, Within;
    var a, b := duo.a.disk.session.value, duo.b.disk.session.value;
    if id in duo.a.broadcasts && again in duo.b.broadcasts { IdsAgree(e, a, b, id, again); }
    if id in duo.b.broadcasts && again in duo.a.broadcasts { IdsAgree(e, a, b, again, id); }
    if id in duo.a.broadcasts && again in duo.a.broadcasts { OneBroadcast(e, duo.a, id, again); }
    if id in duo.b.broadcasts && again in duo.b.broadcasts { OneBroadcast(e, duo.b, id, again); }
  }

  lemma IdsAgree(e: Env, a: Record, b: Record, ida: nat, idb: nat)
    requires Within(a.psbt, b.psbt) || Within(b.psbt, a.psbt)
    requires Recorded(e, a.psbt, Some(ida)) && Recorded(e, b.psbt, Some(idb))
    ensures ida == idb
  {
    hide Within, UnsignedTransaction;
    if Within(a.psbt, b.psbt) { LaterRecords(e, a.psbt, b.psbt, ida); } else { LaterRecords(e, b.psbt, a.psbt, idb); }
  }

  // -------------------------------------------------------------------------
  // From the join

  /** A has proposed, B's file has just got the joined session, and nothing else
    * happened. */
  ghost predicate FreshlyJoined(e: Env, w: Meeting, duo: Duo)
    requires Met(e, w)
  {
    && (duo.a.disk.session == Some(w.a) || duo.a.disk.session == Some(w.a.(outbox := [])))
    && PutOut(duo.a) == {ProposalMessage(w.a)} && duo.a.broadcasts == []
    && duo.b.disk.session == Some(JoinedSession(e, w.meB, w.proposal, w.halfB).value)
    && duo.b.sent == [] && duo.b.broadcasts == []
    && InboxesOk(duo)
  }

  /** The step by which a wallet without a session joins A's proposal is a meeting. */
  lemma JoiningStepMeets(e: Env, me: nat, terms: Option<Terms>, disk: Saved, waited: bool, c: Choices, a: Record,
                         halfA: Half)
    requires ProposedSession(e, a.me, a.session, halfA, a.to, a.sats, a.feeRate) == Ok(a)
    requires disk.session.None? && disk.inbox != [] && disk.inbox[NextInInbox(disk)] == Some(ProposalMessage(a))
    requires c.half.Some? && HasScripts(c.half.value)
    requires Step(e, me, terms, disk, waited, c).disk.session.Some?
    ensures ReadProposal(e, ProposalMessage(a), me).Ok?
    ensures var w := Meeting(a, ReadProposal(e, ProposalMessage(a), me).value, halfA, c.half.value, me);
      && Met(e, w)
      && Step(e, me, terms, disk, waited, c).disk.session == Some(JoinedSession(e, me, w.proposal, c.half.value).value)
  { hide ReadProposal, JoinedSession, ProposedSession; }

  lemma JoinedIsAbstract(e: Env, w: Meeting, duo: Duo)
    requires Met(e, w) && FreshlyJoined(e, w, duo)
    ensures Abstract(duo) == StartOf(e, w) && Healthy(e, duo.a) && Healthy(e, duo.b)
  {
    hide Met, OriginA, OriginB, JoinedSession, Kept, Healthy, InboxesOk, ReadProposal, ProposedSession;
    MeetingIsKept(e, w);
    MeetingFacts(e, w);
    EmptyOutboxes(e, w, duo);
    OutboxDoesNotMatter(e, OriginA(e, w), w.a);
    KeptIsHealthy(e, OriginA(e, w), duo.a);
    KeptIsHealthy(e, OriginB(e, w), duo.b);
  }

  lemma KeptIsHealthy(e: Env, o: Origin, w: World)
    requires w.disk.session.Some? && Kept(e, o, w.disk.session.value) && w.broadcasts == []
    ensures Healthy(e, w)
  { hide Kept; }

  lemma OutboxDoesNotMatter(e: Env, o: Origin, r: Record)
    requires Kept(e, o, r.(outbox := []))
    ensures Kept(e, o, r)
  { }

  lemma EmptyOutboxes(e: Env, w: Meeting, duo: Duo)
    requires Met(e, w) && FreshlyJoined(e, w, duo) && StartOf(e, w).b.outbox == []
    ensures PutOut(duo.b) == {} && duo.b.disk.session.value.(outbox := []) == StartOf(e, w).b
  { hide JoinedSession, ReadProposal, ProposedSession; }

  /** Two wallets that met, each driven over its own file, killed and restarted at any
    * point, over a channel that loses and repeats: never both have the turn, all that
    * either broadcasts is one transaction, and it is what both record. */
  lemma EveryRunOfTwoDrivers(e: Env, n: Names, w: Meeting, duos: seq<Duo>, turns: seq<Turn>)
    requires Met(e, w) && DuoRun(e, n, duos, turns) && FreshlyJoined(e, w, duos[0])
    ensures var duo := duos[|turns|];
      && BothHaveOne(duo) && Sides(e, OriginA(e, w), OriginB(e, w), Abstract(duo))
      && (MyTurn(Abstract(duo).a) == Ok(false) || MyTurn(Abstract(duo).b) == Ok(false))
      && (Abstract(duo).a.stage == Done && Abstract(duo).b.stage == Done ==>
            Abstract(duo).a.txid == Abstract(duo).b.txid && Abstract(duo).a.txid.Some?)
      && forall id, again ::
          id in duo.a.broadcasts + duo.b.broadcasts && again in duo.a.broadcasts + duo.b.broadcasts ==>
        id == again
  {
    hide Met, FreshlyJoined, DuoStep, Sides, Kept, Abstract, Healthy, MyTurn, Execute;
    StartHasBoth(e, w, duos[0]);
    JoinedIsAbstract(e, w, duos[0]);
    var moves := DriversRefine(e, n, duos, turns);
    EveryRunOfTwo(e, w, moves);
    BothStayHealthy(e, n, duos, turns);
    var duo := duos[|turns|];
    forall id, again | id in duo.a.broadcasts + duo.b.broadcasts && again in duo.a.broadcasts + duo.b.broadcasts
      ensures id == again
    { OneIdOfTwo(e, OriginA(e, w), OriginB(e, w), duo, id, again); }
  }

  lemma StartHasBoth(e: Env, w: Meeting, duo: Duo)
    requires Met(e, w) && FreshlyJoined(e, w, duo)
    ensures BothHaveOne(duo) && InboxesOk(duo)
  { hide InboxesOk; }

  /** And with honest devices they are always in one of the six phases of the send. */
  lemma HonestDriversComplete(e: Env, n: Names, w: Meeting, duos: seq<Duo>, turns: seq<Turn>) returns (phase: Phase)
    requires Met(e, w) && DuoRun(e, n, duos, turns) && FreshlyJoined(e, w, duos[0])
    requires forall i :: 0 <= i < |turns| ==> HonestTurn(e, duos[i], turns[i])
    ensures var duo := duos[|turns|];
      && BothHaveOne(duo) && InboxesOk(duo)
      && In(e, OriginA(e, w), OriginB(e, w), SplitOf(StartOf(e, w)), Abstract(duo), phase)
      && (Abstract(duo).a.stage == Done && Abstract(duo).b.stage == Done ==>
            Abstract(duo).a.visits == 1 && Abstract(duo).b.visits == 2)
  {
    hide Met, FreshlyJoined, DuoStep, In, Abstract, HonestTurn, Execute, InboxesOk;
    StartHasBoth(e, w, duos[0]);
    JoinedIsAbstract(e, w, duos[0]);
    var moves := DriversRefine(e, n, duos, turns);
    phase := SharedSendCompletes(e, w, moves);
  }
}
