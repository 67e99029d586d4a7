/** Wherever kills and the channel have left two drivers, letting them run on with
  * devices that work, a channel that hands over and a network that accepts finishes
  * the send. */
module Cooperation {
  import opened Wrappers
  import opened Chain
  import opened PsbtV2
  import opened Absorb
  import opened Soundness
  import opened Building
  import opened Finishing
  import opened SharedSession
  import opened Safety
  import opened Protocol
  import opened HonestSigner
  import opened Completion
  import opened SharedFlow
  import opened Recovery
  import opened TwoDrivers
  import ReferenceSigner

  // -------------------------------------------------------------------------
  // Whole steps of the two drivers

  ghost function Stepper(duo: Duo, byA: bool): World { if byA then duo.a else duo.b }

  ghost function NextWhole(e: Env, n: Names, duo: Duo, turn: Turn): Whole
  {
    var before := Before(Stepper(duo, turn.byA), turn.life);
    if turn.byA then Step(e, n.meA, n.termsA, before.disk, before.waited, turn.life.choices)
    else Step(e, n.meB, n.termsB, before.disk, before.waited, turn.life.choices)
  }

  ghost function Next(e: Env, n: Names, duo: Duo, turn: Turn): Duo
  {
    var after := WholeStep(Before(Stepper(duo, turn.byA), turn.life), NextWhole(e, n, duo, turn));
    if turn.byA then duo.(a := after) else duo.(b := after)
  }

  /** The two after these whole steps. */
  ghost function Driven(e: Env, n: Names, duo: Duo, turns: seq<Turn>): Duo
    decreases |turns|
  { if turns == [] then duo else Driven(e, n, Next(e, n, duo, turns[0]), turns[1..]) }

  ghost predicate AllCarried(e: Env, n: Names, duo: Duo, turns: seq<Turn>)
    decreases |turns|
  {
    turns == [] ||
      (ChannelCarries(duo, turns[0].life.choices.batch) && AllCarried(e, n, Next(e, n, duo, turns[0]), turns[1..]))
  }

  lemma NextIsStep(e: Env, n: Names, duo: Duo, turn: Turn)
    requires ChannelCarries(duo, turn.life.choices.batch)
    ensures DuoStep(e, n, duo, turn, Next(e, n, duo, turn))
  { hide Step, ChannelCarries; }

  lemma {:induction false} DrivenIsARun(e: Env, n: Names, duo: Duo, turns: seq<Turn>) returns (duos: seq<Duo>)
    requires AllCarried(e, n, duo, turns)
    ensures DuoRun(e, n, duos, turns) && duos[0] == duo && duos[|turns|] == Driven(e, n, duo, turns)
    decreases |turns|
  {
    hide Next, DuoStep, ChannelCarries;
    if turns == [] {
      duos := [duo];
    } else {
      NextIsStep(e, n, duo, turns[0]);
      var rest := DrivenIsARun(e, n, Next(e, n, duo, turns[0]), turns[1..]);
      duos := [duo] + rest;
      forall i | 0 <= i < |turns| ensures DuoStep(e, n, duos[i], turns[i], duos[i + 1]) {
        if i > 0 { assert DuoStep(e, n, rest[i - 1], turns[1..][i - 1], rest[i]); }
      }
    }
  }

  // -------------------------------------------------------------------------
  // On the way

  ghost predicate OnTheWay(e: Env, oa: Origin, ob: Origin, w: Split, duo: Duo, phase: Phase)
  { BothHaveOne(duo) && InboxesOk(duo) && In(e, oa, ob, w, Abstract(duo), phase) }

  /** How far the two are from the end. */
  ghost function Distance(duo: Duo): nat
  { if BothHaveOne(duo) then Left(Abstract(duo)) else 0 }

  function Owed(w: World): nat { |Outbox(w.disk)| }

  function Waiting(w: World): nat { |w.disk.inbox| }

  const QUIET := Choices(0, None, false, [], [])

  function Quietly(byA: bool, c: Choices): Turn { Turn(byA, Life(false, c)) }

  /** Sending what is owed changes nothing of the protocol. */
  lemma Flushes(e: Env, n: Names, duo: Duo, byA: bool) returns (turn: Turn)
    requires BothHaveOne(duo) && InboxesOk(duo) && Owed(Stepper(duo, byA)) > 0
    ensures ChannelCarries(duo, turn.life.choices.batch)
    ensures var next := Next(e, n, duo, turn);
      && BothHaveOne(next) && Abstract(next) == Abstract(duo) && InboxesOk(next)
      && Stepper(next, !byA) == Stepper(duo, !byA) && Owed(Stepper(next, byA)) == 0
  {
    hide Ready, MyTurn, Handled;
    var w := Stepper(duo, byA);
    turn := Quietly(byA, QUIET.(sends := Owed(w)));
    var next := Next(e, n, duo, turn);
    var w2 := Stepper(next, byA);
    assert w2.disk == w.disk.(session := Some(w.disk.session.value.(outbox := [])))
      && w2.sent == w.sent + w.disk.session.value.outbox;
    SentOrOwed(w, w2);
    assert Abstract(next) == Abstract(duo);
  }

  lemma SentOrOwed(w: World, w2: World)
    requires w.disk.session.Some? && w2.disk.session.Some? && Outbox(w2.disk) == []
    requires w2.sent == w.sent + w.disk.session.value.outbox
    ensures PutOut(w2) == PutOut(w)
  { }

  lemma ReceivingPostsNothing(e: Env, r: Record, m: Message)
    ensures After(e, r, Receive(m)).outbox == r.outbox
  { hide Adopted, Absorbed, MyInputs, UnsignedTransaction; }

  /** Taking a message from the inbox. */
  lemma Takes(e: Env, n: Names, duo: Duo, byA: bool) returns (turn: Turn)
    requires BothHaveOne(duo) && Owed(Stepper(duo, byA)) == 0 && Waiting(Stepper(duo, byA)) > 0
    ensures turn == Quietly(byA, QUIET) && ChannelCarries(duo, turn.life.choices.batch)
    ensures var w, next := Stepper(duo, byA), Next(e, n, duo, turn);
      var w2 := Stepper(next, byA);
      && Stepper(next, !byA) == Stepper(duo, !byA) && w2.sent == w.sent && w2.disk.session.Some?
      && w2.disk.inbox == w.disk.inbox[1..] && Owed(w2) == 0
      && w2.disk.session.value ==
           (if w.disk.inbox[0].Some? then After(e, w.disk.session.value, Receive(w.disk.inbox[0].value))
            else w.disk.session.value)
  {
    hide Received, Ready, MyTurn;
    turn := Quietly(byA, QUIET);
    var w := Stepper(duo, byA);
    if w.disk.inbox[0].Some? { ReceivingPostsNothing(e, w.disk.session.value, w.disk.inbox[0].value); }
  }

  /** Taking a message leaves the protocol where it is or carries it forward. */
  lemma TakeMoves(e: Env, n: Names, oa: Origin, ob: Origin, w: Split, duo: Duo, phase: Phase, byA: bool)
    returns (turn: Turn, next: Phase)
    requires OnTheWay(e, oa, ob, w, duo, phase) && Owed(Stepper(duo, byA)) == 0 && Waiting(Stepper(duo, byA)) > 0
    ensures ChannelCarries(duo, turn.life.choices.batch)
    ensures var duo2 := Next(e, n, duo, turn);
      && OnTheWay(e, oa, ob, w, duo2, next)
      && (Abstract(duo2) == Abstract(duo) || Distance(duo2) < Distance(duo))
      && Stepper(duo2, !byA) == Stepper(duo, !byA)
      && Owed(Stepper(duo2, byA)) == 0 && Waiting(Stepper(duo2, byA)) < Waiting(Stepper(duo, byA))
  {
    hide In, Advance, Left, Abstract, Next, InboxesOk, ChannelCarries, After, MyTurn, DuoStep;
    turn := Takes(e, n, duo, byA);
    var duo2 := Next(e, n, duo, turn);
    NextIsStep(e, n, duo, turn);
    var move := DuoStepMoves(e, n, duo, turn, duo2);
    next := phase;
    if move.Some? {
      NoVisitIsHonest(e, Abstract(duo), move.value);
      HonestMove(e, oa, ob, w, Abstract(duo), phase, move.value);
      if Abstract(duo2) != Abstract(duo) { next := NextPhase(phase); }
    }
  }

  lemma NoVisitIsHonest(e: Env, s: System, move: Move)
    requires !move.Visit?
    ensures Honest(e, s, move)
  { }

  ghost predicate Listens(r: Record)
  { r.stage != Done && !Ready(r) && MyTurn(r) == Ok(false) }

  /** Nothing is owed and nothing waits. */
  ghost predicate AllQuiet(duo: Duo)
  { Owed(duo.a) == 0 && Owed(duo.b) == 0 && Waiting(duo.a) == 0 && Waiting(duo.b) == 0 }

  lemma Listening(e: Env, n: Names, duo: Duo, toA: bool, m: Message) returns (turn: Turn)
    requires BothHaveOne(duo) && AllQuiet(duo) && m in Abstract(duo).sent
    requires Listens(Stepper(duo, toA).disk.session.value)
    ensures ChannelCarries(duo, turn.life.choices.batch)
    ensures var next := Next(e, n, duo, turn);
      && Stepper(next, !toA) == Stepper(duo, !toA)
      && Stepper(next, toA) == Stepper(duo, toA).(disk := Stepper(duo, toA).disk.(inbox := [Some(m)]))
  {
    hide Ready, MyTurn;
    turn := Quietly(toA, QUIET.(batch := [Some(m)]));
    assert [] + [Some(m)] == [Some(m)];
  }

  /** The channel hands a message over, and it is acted on. */
  lemma PassesOn(e: Env, n: Names, oa: Origin, ob: Origin, w: Split, duo: Duo, phase: Phase, toA: bool, m: Message)
    returns (turns: seq<Turn>, next: Phase)
    requires OnTheWay(e, oa, ob, w, duo, phase) && AllQuiet(duo) && m in Abstract(duo).sent
    requires Listens(Stepper(duo, toA).disk.session.value)
    requires Left(Advance(e, Abstract(duo), Deliver(toA, m))) < Left(Abstract(duo))
    ensures AllCarried(e, n, duo, turns)
    ensures OnTheWay(e, oa, ob, w, Driven(e, n, duo, turns), next)
    ensures Distance(Driven(e, n, duo, turns)) < Distance(duo)
  {
    hide In, Advance, Left, Next, ChannelCarries, After, Listens, PutOut, DuoStep;
    var one := Listening(e, n, duo, toA, m);
    var mid := Next(e, n, duo, one);
    SameOutbox(Stepper(duo, toA), Stepper(mid, toA));
    assert Abstract(mid) == Abstract(duo) && InboxesOk(mid);
    var two := Takes(e, n, mid, toA);
    var end := Next(e, n, mid, two);
    NextIsStep(e, n, mid, two);
    var move := DuoStepMoves(e, n, mid, two, end);
    var r := Stepper(mid, toA).disk.session.value;
    PostsFromNothing(Stepper(mid, toA), Stepper(end, toA));
    ActedAdvances(e, mid, toA, Receive(m), two.life.choices, Stepper(end, toA));
    NoVisitIsHonest(e, Abstract(mid), Deliver(toA, m));
    HonestMove(e, oa, ob, w, Abstract(mid), phase, Deliver(toA, m));
    turns, next := [one, two], NextPhase(phase);
    TwoTurns(e, n, duo, one, two);
  }

  lemma SameOutbox(w: World, w2: World)
    requires w2 == w.(disk := w.disk.(inbox := w2.disk.inbox))
    ensures PutOut(w2) == PutOut(w)
  { }

  lemma PostsFromNothing(w: World, w2: World)
    requires w.disk.session.Some? && w2.disk.session.Some? && Outbox(w.disk) == [] && w2.sent == w.sent
    ensures PutOut(w2) == PutOut(w) + Posts(w2.disk.session.value)
  { }

  /** A step that runs an event on the session, nothing being owed, is that move. */
  lemma StepActs(e: Env, n: Names, oa: Origin, ob: Origin, w: Split, duo: Duo, phase: Phase, turn: Turn, event: Event)
    returns (next: Phase)
    requires OnTheWay(e, oa, ob, w, duo, phase) && AllQuiet(duo) && ChannelCarries(duo, turn.life.choices.batch)
    requires var v, v2 := Stepper(duo, turn.byA), Stepper(Next(e, n, duo, turn), turn.byA);
      && v2.sent == v.sent && v2.disk.session == Some(After(e, v.disk.session.value, event))
      && MayHappen(e, v.disk, v.disk.session.value, event, turn.life.choices)
    requires MoveOf(turn.byA, event).Some? && var move := MoveOf(turn.byA, event).value;
      Honest(e, Abstract(duo), move) && Left(Advance(e, Abstract(duo), move)) < Left(Abstract(duo))
    ensures var duo2 := Next(e, n, duo, turn);
      OnTheWay(e, oa, ob, w, duo2, next) && Distance(duo2) < Distance(duo)
  {
    hide In, Advance, Left, ChannelCarries, After, PutOut, DuoStep, Honest, MayHappen, NextWhole;
    var duo2 := Next(e, n, duo, turn);
    var v, v2 := Stepper(duo, turn.byA), Stepper(duo2, turn.byA);
    NextIsStep(e, n, duo, turn);
    var move := DuoStepMoves(e, n, duo, turn, duo2);
    PostsFromNothing(v, v2);
    ActedAdvances(e, duo, turn.byA, event, turn.life.choices, v2);
    HonestMove(e, oa, ob, w, Abstract(duo), phase, MoveOf(turn.byA, event).value);
    next := NextPhase(phase);
  }

  /** The wallet whose turn it is visits its device. */
  lemma VisitsOn(e: Env, n: Names, oa: Origin, ob: Origin, w: Split, duo: Duo, phase: Phase, byA: bool,
                 d: ReferenceSigner.Device)
    returns (turn: Turn, next: Phase)
    requires OnTheWay(e, oa, ob, w, duo, phase) && AllQuiet(duo) && Visits(e, Abstract(duo), byA, d)
    requires !Ready(Side(Abstract(duo), byA))
    ensures ChannelCarries(duo, turn.life.choices.batch)
    ensures var duo2 := Next(e, n, duo, turn);
      OnTheWay(e, oa, ob, w, duo2, next) && Distance(duo2) < Distance(duo)
  {
    hide In, Left, After, PutOut, DuoStep, HonestAnswer, MyInputs, Responded, MyTurn, NextPass, Ready,
         ReferenceSigner.Answered, InboxesOk;
    var s, r := Abstract(duo), Stepper(duo, byA).disk.session.value;
    assert Side(s, byA) == r by { assert r.(outbox := []) == r; }
    var answer := ReferenceSigner.Answered(e, d, SignerRequest(r.psbt, MyInputs(r.mine, r.psbt.inputs).value)).answer;
    if Responded(e, r, answer).Err? { VisitRefused(e, s, byA, answer); }
    turn := Quietly(byA, QUIET.(answers := [answer]));
    assert [answer][0] == answer;
    AnswerIsTaken(e, r, answer);
    VisitStep(e, n, duo, byA, answer);
    next := StepActs(e, n, oa, ob, w, duo, phase, turn, Answer(answer));
  }

  lemma AnswerIsTaken(e: Env, r: Record, answer: Psbt)
    requires Responded(e, r, answer).Ok?
    ensures After(e, r, Answer(answer)) == Responded(e, r, answer).value
    ensures FirstTaken(e, r, [answer]) == Some(Responded(e, r, answer).value)
  { hide Responded; }

  lemma VisitStep(e: Env, n: Names, duo: Duo, byA: bool, answer: Psbt)
    requires BothHaveOne(duo) && AllQuiet(duo)
    requires var r := Stepper(duo, byA).disk.session.value;
      && !Ready(r) && MyTurn(r) == Ok(true) && NextPass(e, r).Ok? && r.stage == Active
      && FirstTaken(e, r, [answer]).Some?
    ensures var turn := Quietly(byA, QUIET.(answers := [answer]));
      var v, v2 := Stepper(duo, byA), Stepper(Next(e, n, duo, turn), byA);
      v2.sent == v.sent && v2.disk.session == FirstTaken(e, v.disk.session.value, [answer])
  { hide Ready, MyTurn, NextPass, FirstTaken; }

  /** The other's news is newest, and this process has not yet waited for more. */
  ghost predicate HoldsBack(w: World)
  { w.disk.session.Some? && w.disk.session.value.newest == Theirs && !w.waited }

  /** A wallet that would rather hear of the other's broadcast waits once. */
  lemma WaitsFirst(e: Env, n: Names, duo: Duo, byA: bool) returns (turn: Turn)
    requires BothHaveOne(duo) && AllQuiet(duo)
    requires Ready(Stepper(duo, byA).disk.session.value) && HoldsBack(Stepper(duo, byA))
    ensures ChannelCarries(duo, turn.life.choices.batch)
    ensures var next := Next(e, n, duo, turn);
      Stepper(next, !byA) == Stepper(duo, !byA) && Stepper(next, byA) == Stepper(duo, byA).(waited := true)
  {
    hide MyTurn, FinalizedSession;
    turn := Quietly(byA, QUIET);
  }

  lemma BroadcastStep(e: Env, n: Names, duo: Duo, byA: bool)
    requires BothHaveOne(duo) && AllQuiet(duo)
    requires var v := Stepper(duo, byA);
      var r := v.disk.session.value;
      && Ready(r) && !HoldsBack(v) && FinalizedSession(e, r).Ok?
      && Finished(e, r, e.txid(FinalizedSession(e, r).value.tx)).Ok?
    ensures var turn := Quietly(byA, QUIET.(accepted := true));
      var v, v2 := Stepper(duo, byA), Stepper(Next(e, n, duo, turn), byA);
      var r := v.disk.session.value;
      v2.sent == v.sent && v2.disk.session == Some(After(e, r, Finish(e.txid(FinalizedSession(e, r).value.tx))))
  { hide MyTurn, FinalizedSession, Finished; }

  /** A wallet that holds the finished transaction broadcasts it. */
  lemma BroadcastsNow(e: Env, n: Names, oa: Origin, ob: Origin, w: Split, duo: Duo, phase: Phase, byA: bool)
    returns (turn: Turn, next: Phase)
    requires OnTheWay(e, oa, ob, w, duo, phase) && AllQuiet(duo)
    requires Left(Advance(e, Abstract(duo), Broadcast(byA))) < Left(Abstract(duo))
    requires !HoldsBack(Stepper(duo, byA))
    ensures ChannelCarries(duo, turn.life.choices.batch)
    ensures var duo2 := Next(e, n, duo, turn);
      OnTheWay(e, oa, ob, w, duo2, next) && Distance(duo2) < Distance(duo)
  {
    hide In, Left, PutOut, DuoStep, Ready, FinalizedSession, Finished, InboxesOk;
    var s, r := Abstract(duo), Stepper(duo, byA).disk.session.value;
    assert Side(s, byA) == r by { assert r.(outbox := []) == r; }
    BroadcastIsPossible(e, s, byA);
    var id := e.txid(FinalizedSession(e, r).value.tx);
    BroadcastStep(e, n, duo, byA);
    turn := Quietly(byA, QUIET.(accepted := true));
    next := StepActs(e, n, oa, ob, w, duo, phase, turn, Finish(id));
  }

  lemma BroadcastIsPossible(e: Env, s: System, byA: bool)
    requires Side(s, byA).outbox == [] && Advance(e, s, Broadcast(byA)) != s
    ensures var r := Side(s, byA);
      && Ready(r) && FinalizedSession(e, r).Ok?
      && Finished(e, r, e.txid(FinalizedSession(e, r).value.tx)).Ok?
  {
    hide Ready, FinalizedSession, Finished;
    NothingToPost(s, byA, Side(s, byA));
  }

  lemma BroadcastsOn(e: Env, n: Names, oa: Origin, ob: Origin, w: Split, duo: Duo, phase: Phase, byA: bool)
    returns (turns: seq<Turn>, next: Phase)
    requires OnTheWay(e, oa, ob, w, duo, phase) && AllQuiet(duo)
    requires Left(Advance(e, Abstract(duo), Broadcast(byA))) < Left(Abstract(duo))
    ensures AllCarried(e, n, duo, turns)
    ensures OnTheWay(e, oa, ob, w, Driven(e, n, duo, turns), next)
    ensures Distance(Driven(e, n, duo, turns)) < Distance(duo)
  {
    hide In, Left, PutOut, Ready, Advance, Next, ChannelCarries;
    var v := Stepper(duo, byA);
    if HoldsBack(v) {
      var r := v.disk.session.value;
      assert Side(Abstract(duo), byA) == r by { assert r.(outbox := []) == r; }
      BroadcastIsPossible(e, Abstract(duo), byA);
      var one := WaitsFirst(e, n, duo, byA);
      var mid := Next(e, n, duo, one);
      WaitedPutsNothingOut(v, Stepper(mid, byA));
      assert Abstract(mid) == Abstract(duo) && InboxesOk(mid);
      var two;
      two, next := BroadcastsNow(e, n, oa, ob, w, mid, phase, byA);
      turns := [one, two];
      TwoTurns(e, n, duo, one, two);
    } else {
      var one;
      one, next := BroadcastsNow(e, n, oa, ob, w, duo, phase, byA);
      turns := [one];
      OneTurn(e, n, duo, one);
    }
  }

  lemma WaitedPutsNothingOut(w: World, w2: World)
    requires w2 == w.(waited := w2.waited)
    ensures PutOut(w2) == PutOut(w)
  { }

  lemma OneTurn(e: Env, n: Names, duo: Duo, one: Turn)
    requires ChannelCarries(duo, one.life.choices.batch)
    ensures Driven(e, n, duo, [one]) == Next(e, n, duo, one) && AllCarried(e, n, duo, [one])
  {
    hide Next, ChannelCarries;
    assert [one][1..] == [];
  }

  lemma TwoTurns(e: Env, n: Names, duo: Duo, one: Turn, two: Turn)
    requires ChannelCarries(duo, one.life.choices.batch) && ChannelCarries(Next(e, n, duo, one), two.life.choices.batch)
    ensures Driven(e, n, duo, [one, two]) == Next(e, n, Next(e, n, duo, one), two) && AllCarried(e, n, duo, [one, two])
  {
    hide Next, ChannelCarries;
    assert [one, two][1..] == [two];
    OneTurn(e, n, Next(e, n, duo, one), two);
  }

  // -------------------------------------------------------------------------
  // To the end

  lemma UnsignedIsNotReady(e: Env, oa: Origin, ob: Origin, w: Split, s: System, phase: Phase)
    requires In(e, oa, ob, w, s, phase)
    ensures phase == ToShare || phase == ToComplete ==> !Ready(s.b)
    ensures phase == ToSign ==> !Ready(s.a)
    ensures phase == Shared ==> Listens(s.a)
    ensures phase == HalfSigned ==> Listens(s.b)
  {
    hide Kept, Known, Adoptable, Ready, Splits, HasShares, LacksShares, SignedAt, Level;
    match phase
    case ToShare => UnsignedInput(w, s, s.b.psbt, {}); NotReady(s.b);
    case ToSign => UnsignedInput(w, s, s.a.psbt, {}); NotReady(s.a);
    case ToComplete => UnsignedInput(w, s, s.b.psbt, w.a); NotReady(s.b);
    case Shared => ProposingListens(s.a);
    case HalfSigned =>
      UnsignedInput(w, s, s.a.psbt, w.a);
      assert Within(s.b.psbt, s.a.psbt);
      if AllSigned(s.b.psbt) { SignedStaysSigned(s.b.psbt, s.a.psbt); }
      NotReady(s.b);
    case Closing =>
  }

  lemma ProposingListens(r: Record)
    requires r.stage == Proposing
    ensures Listens(r)
  { }

  lemma LateListens(e: Env, oa: Origin, ob: Origin, w: Split, s: System)
    requires In(e, oa, ob, w, s, Closing) && s.a.psbt != s.b.psbt
    ensures Listens(s.a)
  {
    hide Consistent, Ready, AllSigned;
    if AllSigned(s.a.psbt) { SignedIsLast(e, oa, ob, s); }
    NotReady(s.a);
  }

  /** When nothing is owed or waiting, some step carries the send forward. */
  lemma Forward(e: Env, n: Names, oa: Origin, ob: Origin, w: Split, duo: Duo, phase: Phase,
                da: ReferenceSigner.Device, db: ReferenceSigner.Device) returns (turns: seq<Turn>, next: Phase)
    requires OnTheWay(e, oa, ob, w, duo, phase) && AllQuiet(duo) && Equipped(e, w, da, db)
    requires Abstract(duo).a.stage != Done || Abstract(duo).b.stage != Done
    ensures AllCarried(e, n, duo, turns)
    ensures OnTheWay(e, oa, ob, w, Driven(e, n, duo, turns), next)
    ensures Distance(Driven(e, n, duo, turns)) < Distance(duo)
  {
    hide In, Left, PutOut, Ready, Advance, Next, ChannelCarries, Equipped, Visits, Listens, InboxesOk, MyTurn;
    var s := Abstract(duo);
    QuietSides(duo);
    NeverStuck(e, oa, ob, w, s, phase, da, db);
    UnsignedIsNotReady(e, oa, ob, w, s, phase);
    match phase
    case Shared =>
      var m :| m in s.sent && Left(Advance(e, s, Deliver(true, m))) < Left(s);
      turns, next := PassesOn(e, n, oa, ob, w, duo, phase, true, m);
    case HalfSigned =>
      var m :| m in s.sent && Left(Advance(e, s, Deliver(false, m))) < Left(s);
      turns, next := PassesOn(e, n, oa, ob, w, duo, phase, false, m);
    case Closing => turns, next := ForwardClosing(e, n, oa, ob, w, duo);
    case _ =>
      var one;
      one, next := VisitsOn(e, n, oa, ob, w, duo, phase, phase == ToSign, if phase == ToSign then da else db);
      turns := [one];
      OneTurn(e, n, duo, one);
  }

  lemma QuietSides(duo: Duo)
    requires BothHaveOne(duo) && AllQuiet(duo)
    ensures Abstract(duo).a == duo.a.disk.session.value && Abstract(duo).b == duo.b.disk.session.value
  {
    var a, b := duo.a.disk.session.value, duo.b.disk.session.value;
    assert a.(outbox := []) == a && b.(outbox := []) == b;
  }

  lemma ForwardClosing(e: Env, n: Names, oa: Origin, ob: Origin, w: Split, duo: Duo)
    returns (turns: seq<Turn>, next: Phase)
    requires OnTheWay(e, oa, ob, w, duo, Closing) && AllQuiet(duo)
    requires Abstract(duo).a.stage != Done || Abstract(duo).b.stage != Done
    ensures AllCarried(e, n, duo, turns)
    ensures OnTheWay(e, oa, ob, w, Driven(e, n, duo, turns), next)
    ensures Distance(Driven(e, n, duo, turns)) < Distance(duo)
  {
    hide Left, PutOut, Ready, Advance, Next, ChannelCarries, Listens, InboxesOk, Consistent, AllSigned, IsUpdateOf;
    var s := Abstract(duo);
    QuietSides(duo);
    if s.a.psbt != s.b.psbt {
      var m :| m in s.sent && IsUpdateOf(s.b, m);
      DeliverClosing(e, oa, ob, w, s, true, m);
      LateListens(e, oa, ob, w, s);
      turns, next := PassesOn(e, n, oa, ob, w, duo, Closing, true, m);
    } else {
      var byA := s.b.stage == Done;
      SignedIsReady(Side(s, byA));
      BroadcastClosing(e, oa, ob, w, s, byA);
      turns, next := BroadcastsOn(e, n, oa, ob, w, duo, Closing, byA);
    }
  }

  /** From wherever the two are, whole steps lead to the end. */
  lemma {:induction false} CanFinish(e: Env, n: Names, oa: Origin, ob: Origin, w: Split, duo: Duo, phase: Phase,
                                     da: ReferenceSigner.Device, db: ReferenceSigner.Device) returns (turns: seq<Turn>)
    requires OnTheWay(e, oa, ob, w, duo, phase) && Equipped(e, w, da, db)
    ensures AllCarried(e, n, duo, turns)
    ensures var end := Driven(e, n, duo, turns);
      && BothHaveOne(end) && AllQuiet(end)
      && end.a.disk.session.value.stage == Done && end.b.disk.session.value.stage == Done
    decreases Distance(duo), Owed(duo.a) + Owed(duo.b), Waiting(duo.a) + Waiting(duo.b)
  {
    hide In, Left, PutOut, Next, ChannelCarries, Equipped, InboxesOk, Abstract;
    if Owed(duo.a) > 0 || Owed(duo.b) > 0 {
      var one := Flushes(e, n, duo, Owed(duo.a) > 0);
      var rest := CanFinish(e, n, oa, ob, w, Next(e, n, duo, one), phase, da, db);
      turns := [one] + rest;
      DrivenOn(e, n, duo, [one], rest, one);
    } else if Waiting(duo.a) > 0 || Waiting(duo.b) > 0 {
      var one, next := TakeMoves(e, n, oa, ob, w, duo, phase, Waiting(duo.a) > 0);
      var rest := CanFinish(e, n, oa, ob, w, Next(e, n, duo, one), next, da, db);
      turns := [one] + rest;
      DrivenOn(e, n, duo, [one], rest, one);
    } else {
      QuietStages(duo);
      if duo.a.disk.session.value.stage == Done && duo.b.disk.session.value.stage == Done { return []; }
      var some, next := Forward(e, n, oa, ob, w, duo, phase, da, db);
      var rest := CanFinish(e, n, oa, ob, w, Driven(e, n, duo, some), next, da, db);
      turns := some + rest;
      DrivenFurther(e, n, duo, some, rest);
    }
  }

  lemma QuietStages(duo: Duo)
    requires BothHaveOne(duo)
    ensures Abstract(duo).a.stage == duo.a.disk.session.value.stage
    ensures Abstract(duo).b.stage == duo.b.disk.session.value.stage
  { }

  lemma DrivenOn(e: Env, n: Names, duo: Duo, first: seq<Turn>, rest: seq<Turn>, one: Turn)
    requires first == [one] && ChannelCarries(duo, one.life.choices.batch)
    requires AllCarried(e, n, Next(e, n, duo, one), rest)
    ensures AllCarried(e, n, duo, first + rest)
    ensures Driven(e, n, duo, first + rest) == Driven(e, n, Next(e, n, duo, one), rest)
  {
    hide Next, ChannelCarries;
    assert (first + rest)[1..] == rest;
  }

  lemma {:induction false} DrivenFurther(e: Env, n: Names, duo: Duo, some: seq<Turn>, rest: seq<Turn>)
    requires AllCarried(e, n, duo, some) && AllCarried(e, n, Driven(e, n, duo, some), rest)
    ensures AllCarried(e, n, duo, some + rest)
    ensures Driven(e, n, duo, some + rest) == Driven(e, n, Driven(e, n, duo, some), rest)
    decreases |some|
  {
    hide Next, ChannelCarries;
    if some == [] {
      assert some + rest == rest;
    } else {
      DrivenFurther(e, n, Next(e, n, duo, some[0]), some[1..], rest);
      assert (some + rest)[1..] == some[1..] + rest;
    }
  }

  /** After any run of two drivers with honest devices, however often they were killed
    * and whatever the channel did to what they sent: let them run on undisturbed, and
    * both record one transaction, owe nothing, and only it was ever broadcast. */
  lemma EveryRunCanFinish(e: Env, n: Names, w: Meeting, duos: seq<Duo>, turns: seq<Turn>,
                          da: ReferenceSigner.Device, db: ReferenceSigner.Device) returns (more: seq<Turn>)
    requires Met(e, w) && DuoRun(e, n, duos, turns) && FreshlyJoined(e, w, duos[0])
    requires forall i :: 0 <= i < |turns| ==> HonestTurn(e, duos[i], turns[i])
    requires Equipped(e, SplitOf(StartOf(e, w)), da, db)
    ensures AllCarried(e, n, duos[|turns|], more)
    ensures var end := Driven(e, n, duos[|turns|], more);
      && BothHaveOne(end) && AllQuiet(end)
      && var (a, b) := (end.a.disk.session.value, end.b.disk.session.value);
      && a.stage == Done && b.stage == Done && a.txid == b.txid && a.txid.Some?
      && forall id, again ::
          id in end.a.broadcasts + end.b.broadcasts && again in end.a.broadcasts + end.b.broadcasts ==>
        id == again
  {
    hide Met, FreshlyJoined, DuoStep, In, HonestTurn, InboxesOk, Equipped, AllCarried, Driven, Sides, PutOut;
    var oa, ob, split := OriginA(e, w), OriginB(e, w), SplitOf(StartOf(e, w));
    var phase := HonestDriversComplete(e, n, w, duos, turns);
    more := CanFinish(e, n, oa, ob, split, duos[|turns|], phase, da, db);
    var rest := DrivenIsARun(e, n, duos[|turns|], more);
    RunsJoin(e, n, duos, turns, rest, more);
    EveryRunOfTwoDrivers(e, n, w, duos + rest[1..], turns + more);
    QuietSides(rest[|more|]);
  }

  lemma RunsJoin(e: Env, n: Names, duos: seq<Duo>, turns: seq<Turn>, rest: seq<Duo>, more: seq<Turn>)
    requires DuoRun(e, n, duos, turns) && DuoRun(e, n, rest, more) && rest[0] == duos[|turns|]
    ensures DuoRun(e, n, duos + rest[1..], turns + more)
    ensures (duos + rest[1..])[0] == duos[0] && (duos + rest[1..])[|turns + more|] == rest[|more|]
  {
    hide DuoStep;
    var all, steps := duos + rest[1..], turns + more;
    forall i | 0 <= i < |steps| ensures DuoStep(e, n, all[i], steps[i], all[i + 1]) {
      if i >= |turns| {
        assert DuoStep(e, n, rest[i - |turns|], more[i - |turns|], rest[i - |turns| + 1]);
      }
    }
  }
}
