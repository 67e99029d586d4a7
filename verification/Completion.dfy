/** With honest signers the two wallets finish: three visits in a fixed order, and
  * then one transaction, whatever order the channel delivers in. */
module Completion {
  import opened Wrappers
  import opened Chain
  import opened PsbtV2
  import opened Shares
  import opened Absorb
  import opened Soundness
  import opened Fees
  import opened Building
  import opened Joining
  import opened Finishing
  import opened SharedSession
  import opened Safety
  import opened Protocol
  import opened HonestSigner
  import Dleq
  import ReferenceSigner
  import opened Curve
  import opened Derive
  import opened Agreement

  // -------------------------------------------------------------------------
  // Where a run can stand

  ghost predicate HasShares(p: Psbt, at: set<nat>)
  {
    forall i, o :: 0 <= i < |p.inputs| && i in at && 0 <= o < |p.outputs| && p.outputs[o].info.Some? ==>
      p.outputs[o].info.value.scan in p.inputs[i].held.shares
  }

  ghost predicate LacksShares(p: Psbt, at: set<nat>)
  {
    forall i, o :: 0 <= i < |p.inputs| && i in at && 0 <= o < |p.outputs| && p.outputs[o].info.Some? ==>
      p.outputs[o].info.value.scan !in p.inputs[i].held.shares
  }

  ghost predicate SignedAt(p: Psbt, at: set<nat>)
  { forall i :: 0 <= i < |p.inputs| ==> (CarriesSignature(p.inputs[i].held) <==> i in at) }

  /** The joined transaction, and whose input is whose; neither wallet is without one. */
  datatype Split = Split(a: set<nat>, b: set<nat>, skeleton: Psbt)

  ghost predicate Splits(w: Split, s: System, p: Psbt)
  {
    && MyInputs(s.a.mine, p.inputs) == Some(w.a) && MyInputs(s.b.mine, p.inputs) == Some(w.b)
    && w.a !! w.b && w.a != {} && w.b != {}
    && (forall i: nat :: i < |p.inputs| <==> i in w.a + w.b)
    && OneScan(p.outputs)
    && Skeleton(p) == w.skeleton && ReferenceSigner.Ordinary(p)
  }

  /** The state this side ended its last visit with is on its way. */
  ghost predicate Underway(r: Record, sent: set<Message>)
  { exists m :: m in sent && IsUpdateOf(r, m) }

  ghost predicate IsUpdateOf(r: Record, m: Message)
  { m.kind == UpdateKind && m.from == r.me && m.session == r.session && m.psbt == Some(r.psbt) }

  datatype Phase = ToShare | Shared | ToSign | HalfSigned | ToComplete | Closing

  ghost predicate ToVisit(r: Record, visits: nat)
  { r.stage == Active && r.newest != Mine && r.visits == visits }

  ghost predicate HasVisited(r: Record, visits: nat)
  { r.stage == Active && r.newest == Mine && r.visits == visits }

  ghost predicate In(e: Env, oa: Origin, ob: Origin, w: Split, s: System, phase: Phase)
  {
    && s.a.outbox == [] && s.b.outbox == []
    && match phase
       case ToShare =>
         && Leads(e, ob, oa, s.b, s.a, s.sent) && s.a.stage == Proposing && s.a.visits == 0 && ToVisit(s.b, 0)
         && Splits(w, s, s.b.psbt) && LacksShares(s.b.psbt, w.a + w.b) && SignedAt(s.b.psbt, {})
       case Shared =>
         && Leads(e, ob, oa, s.b, s.a, s.sent) && s.a.stage == Proposing && s.a.visits == 0 && HasVisited(s.b, 1)
         && Splits(w, s, s.b.psbt) && HasShares(s.b.psbt, w.b) && LacksShares(s.b.psbt, w.a) && SignedAt(s.b.psbt, {})
         && Underway(s.b, s.sent)
       case ToSign =>
         && Leads(e, oa, ob, s.a, s.b, s.sent) && ToVisit(s.a, 0) && HasVisited(s.b, 1)
         && Splits(w, s, s.a.psbt) && HasShares(s.a.psbt, w.b) && LacksShares(s.a.psbt, w.a) && SignedAt(s.a.psbt, {})
       case HalfSigned =>
         && Leads(e, oa, ob, s.a, s.b, s.sent) && HasVisited(s.a, 1) && HasVisited(s.b, 1)
         && Splits(w, s, s.a.psbt) && HasShares(s.a.psbt, w.a + w.b)
         && SignedAt(s.a.psbt, w.a) && SignedAt(s.b.psbt, {})
         && Underway(s.a, s.sent)
       case ToComplete =>
         && Leads(e, ob, oa, s.b, s.a, s.sent) && ToVisit(s.b, 1) && HasVisited(s.a, 1)
         && Splits(w, s, s.b.psbt) && HasShares(s.b.psbt, w.a + w.b) && SignedAt(s.b.psbt, w.a)
       case Closing =>
         && Consistent(e, oa, ob, s) && s.a.visits == 1 && s.b.visits == 2
         && s.a.stage != Proposing && s.b.stage != Proposing && AllSigned(s.b.psbt)
         && (s.a.psbt == s.b.psbt || HasVisited(s.a, 1)) && Underway(s.b, s.sent)
  }

  function NotDone(r: Record): nat { if r.stage == Done then 0 else 1 }

  function Behind(s: System): nat { if s.a.stage == Proposing || s.a.psbt != s.b.psbt then 1 else 0 }

  function Holding(r: Record): nat { if r.stage == Active && r.newest != Mine then 1 else 0 }

  /** What is left to do: visits, deliveries, broadcasts. */
  function Left(s: System): nat
  {
    var visits, last := s.a.visits + s.b.visits, NotDone(s.a) + NotDone(s.b) + Behind(s);
    if visits >= 3 then last
    else 8 * (3 - visits) + (if Holding(s.a) + Holding(s.b) == 0 then 4 else 0) + last
  }

  // -------------------------------------------------------------------------
  // Deliveries while something is unsigned

  lemma NoNewsYet(e: Env, mine: Origin, theirs: Origin, lead: Record, other: Record, sent: set<Message>, m: Message)
    requires Leads(e, mine, theirs, lead, other, sent) && m in sent && !AllSigned(lead.psbt)
    ensures m.kind != DoneKind
  {
    hide Kept, Sound, Adoptable, Recorded;
    assert Known(e, lead, other, m);
    if m.kind == DoneKind { SignedStaysSigned(m.psbt.value, lead.psbt); }
  }

  lemma SignedStaysSigned(p: Psbt, q: Psbt)
    requires Within(p, q) && AllSigned(p)
    ensures AllSigned(q)
  { }

  /** Until everything is signed, no delivery moves the side that leads. */
  lemma LeadIsDeaf(e: Env, mine: Origin, theirs: Origin, lead: Record, other: Record, sent: set<Message>, m: Message)
    requires Leads(e, mine, theirs, lead, other, sent) && m in sent && !AllSigned(lead.psbt)
    ensures After(e, lead, Receive(m)) == lead
  {
    hide Kept, Sound, Adoptable, AllSigned, Recorded, ReceivedUpdate;
    NoNewsYet(e, mine, theirs, lead, other, sent, m);
    assert Known(e, lead, other, m);
    if !NotForMe(lead, m) {
      if lead.stage == Active { OrderedUpdate(e, mine, lead, m, lead.psbt); } else { DoneStays(e, lead, m); }
    }
  }

  ghost predicate CatchesUp(lead: Record, other: Record, next: Record)
  { next == other.(psbt := lead.psbt, stage := Active, newest := Theirs, peer := Some(lead.me)) }

  /** And the other side either stays as it is or catches up and leads. */
  lemma OtherCatchesUp(e: Env, mine: Origin, theirs: Origin, lead: Record, other: Record, sent: set<Message>,
                       m: Message)
    requires Leads(e, mine, theirs, lead, other, sent) && m in sent && !AllSigned(lead.psbt) && other.stage != Done
    ensures var next := After(e, other, Receive(m));
      && (next == other || (CatchesUp(lead, other, next) && Leads(e, theirs, mine, next, lead, sent)))
      && (Level(lead, other, sent) ==> next == other)
      && (IsUpdateOf(lead, m) && (other.stage == Proposing || other.psbt != lead.psbt) ==> CatchesUp(lead, other, next))
  {
    hide Kept, Sound, Adoptable, AllSigned, Recorded, ReceivedUpdate;
    NoNewsYet(e, mine, theirs, lead, other, sent, m);
    assert Known(e, lead, other, m);
    var next := After(e, other, Receive(m));
    if !NotForMe(other, m) {
      EventKeeps(e, theirs, other, Receive(m));
      if other.stage == Proposing {
        assert m.psbt.value == lead.psbt;
        AdoptsLead(e, lead, other);
        FirstUpdate(e, theirs, other, m);
        TakesTheLead(e, mine, theirs, lead, other, next, sent, m);
      } else if Within(m.psbt.value, other.psbt) {
        OrderedUpdate(e, theirs, other, m, other.psbt);
        if m.psbt.value == lead.psbt { WithinBothWays(lead.psbt, other.psbt); }
      } else {
        OrderedUpdate(e, theirs, other, m, lead.psbt);
        if lead.psbt != other.psbt { TakesTheLead(e, mine, theirs, lead, other, next, sent, m); }
      }
    }
  }

  lemma AdoptsLead(e: Env, lead: Record, other: Record)
    requires Adoptable(e, other, lead.psbt)
    ensures AdoptsTo(e, other, lead.psbt)
  { }

  // -------------------------------------------------------------------------
  // One move from each phase

  lemma UnsignedInput(w: Split, s: System, p: Psbt, at: set<nat>)
    requires Splits(w, s, p) && SignedAt(p, at) && (at == {} || at == w.a)
    ensures !AllSigned(p) && p.inputs != []
  { }

  /** Positions depend on the coins, and a skeleton fixes those. */
  lemma {:induction false} SamePosition(p: seq<Input>, q: seq<Input>, coin: OutPoint)
    requires |p| == |q| && forall i :: 0 <= i < |p| ==> p[i].fact.coin == q[i].fact.coin
    ensures PositionOfCoin(p, coin) == PositionOfCoin(q, coin)
  { }

  lemma SplitStays(w: Split, s: System, p: Psbt, t: System, q: Psbt)
    requires Splits(w, s, p) && Skeleton(p) == Skeleton(q) && s.a.mine == t.a.mine && s.b.mine == t.b.mine
    ensures Splits(w, t, q)
  {
    SkeletonParts(p, q);
    forall coin
      ensures PositionOfCoin(p.inputs, coin) == PositionOfCoin(q.inputs, coin)
    { SamePosition(p.inputs, q.inputs, coin); }
    assert AllThere(s.a.mine, q.inputs) && AllThere(s.b.mine, q.inputs);
    assert MyInputs(t.a.mine, q.inputs).value == w.a;
    assert MyInputs(t.b.mine, q.inputs).value == w.b;
    forall o | 0 <= o < |p.outputs|
      ensures p.outputs[o].info == q.outputs[o].info
      ensures p.outputs[o].info.None? ==> p.outputs[o].script == q.outputs[o].script
    {
      assert BareOutput(p.outputs[o]) == BareOutput(q.outputs[o]);
    }
    assert OneScan(q.outputs) by {
      var o :| 0 <= o < |p.outputs| && p.outputs[o].info.Some?;
      assert q.outputs[o].info.Some?;
    }
  }

  /** A delivery while B leads and something is unsigned. */
  lemma DeliverWhileBLeads(e: Env, oa: Origin, ob: Origin, s: System, toA: bool, m: Message)
    requires Leads(e, ob, oa, s.b, s.a, s.sent) && m in s.sent && !AllSigned(s.b.psbt)
    requires s.a.outbox == [] && s.b.outbox == [] && s.a.stage != Done
    ensures var t := Advance(e, s, Deliver(toA, m));
      && (t == s || (toA && t == s.(a := t.a) && CatchesUp(s.b, s.a, t.a) && Leads(e, oa, ob, t.a, t.b, t.sent)))
      && (!toA || Level(s.b, s.a, s.sent) ==> t == s)
      && (toA && IsUpdateOf(s.b, m) && Behind(s) == 1 ==> CatchesUp(s.b, s.a, t.a))
  {
    hide Leads, After, Level;
    if toA { OtherCatchesUp(e, ob, oa, s.b, s.a, s.sent, m); } else { LeadIsDeaf(e, ob, oa, s.b, s.a, s.sent, m); }
    NothingToPost(s, toA, After(e, Side(s, toA), Receive(m)));
  }

  lemma DeliverWhileALeads(e: Env, oa: Origin, ob: Origin, s: System, toA: bool, m: Message)
    requires Leads(e, oa, ob, s.a, s.b, s.sent) && m in s.sent && !AllSigned(s.a.psbt)
    requires s.a.outbox == [] && s.b.outbox == [] && s.b.stage == Active
    ensures var t := Advance(e, s, Deliver(toA, m));
      && (t == s || (!toA && t == s.(b := t.b) && CatchesUp(s.a, s.b, t.b) && Leads(e, ob, oa, t.b, t.a, t.sent)))
      && (toA || Level(s.a, s.b, s.sent) ==> t == s)
      && (!toA && IsUpdateOf(s.a, m) && s.a.psbt != s.b.psbt ==> CatchesUp(s.a, s.b, t.b))
  {
    hide Leads, After, Level;
    if toA { LeadIsDeaf(e, oa, ob, s.a, s.b, s.sent, m); } else { OtherCatchesUp(e, oa, ob, s.a, s.b, s.sent, m); }
    NothingToPost(s, toA, After(e, Side(s, toA), Receive(m)));
  }

  function NextPhase(phase: Phase): Phase
  {
    match phase
    case ToShare => Shared
    case Shared => ToSign
    case ToSign => HalfSigned
    case HalfSigned => ToComplete
    case ToComplete => Closing
    case Closing => Closing
  }

  lemma DeliverToShare(e: Env, oa: Origin, ob: Origin, w: Split, s: System, toA: bool, m: Message)
    requires In(e, oa, ob, w, s, ToShare) && m in s.sent
    ensures Advance(e, s, Deliver(toA, m)) == s
  {
    hide Splits, Kept, Known, Adoptable, LacksShares;
    UnsignedInput(w, s, s.b.psbt, {});
    DeliverWhileBLeads(e, oa, ob, s, toA, m);
  }

  lemma DeliverShared(e: Env, oa: Origin, ob: Origin, w: Split, s: System, toA: bool, m: Message)
    requires In(e, oa, ob, w, s, Shared) && m in s.sent
    ensures var t := Advance(e, s, Deliver(toA, m));
      t == s || (In(e, oa, ob, w, t, ToSign) && Left(t) < Left(s))
    ensures toA && IsUpdateOf(s.b, m) ==> Advance(e, s, Deliver(toA, m)) != s
  {
    hide Leads, Splits, HasShares, LacksShares, SignedAt, Advance;
    UnsignedInput(w, s, s.b.psbt, {});
    BLeadsAProposing(e, oa, ob, s);
    DeliverWhileBLeads(e, oa, ob, s, toA, m);
    var t := Advance(e, s, Deliver(toA, m));
    if t != s { SplitStays(w, s, s.b.psbt, t, t.a.psbt); }
  }

  lemma BLeadsAProposing(e: Env, oa: Origin, ob: Origin, s: System)
    requires Leads(e, ob, oa, s.b, s.a, s.sent) && s.a.stage == Proposing
    ensures s.a.newest == Mine
  { }

  lemma DeliverToSign(e: Env, oa: Origin, ob: Origin, w: Split, s: System, toA: bool, m: Message)
    requires In(e, oa, ob, w, s, ToSign) && m in s.sent
    ensures Advance(e, s, Deliver(toA, m)) == s
  {
    hide Splits, Kept, Known, Adoptable, LacksShares, HasShares;
    UnsignedInput(w, s, s.a.psbt, {});
    DeliverWhileALeads(e, oa, ob, s, toA, m);
  }

  lemma HalfSignedDiffers(w: Split, s: System)
    requires Splits(w, s, s.a.psbt) && SignedAt(s.a.psbt, w.a) && SignedAt(s.b.psbt, {})
    ensures s.a.psbt != s.b.psbt
  { }

  lemma DeliverHalfSigned(e: Env, oa: Origin, ob: Origin, w: Split, s: System, toA: bool, m: Message)
    requires In(e, oa, ob, w, s, HalfSigned) && m in s.sent
    ensures var t := Advance(e, s, Deliver(toA, m));
      t == s || (In(e, oa, ob, w, t, ToComplete) && Left(t) < Left(s))
    ensures !toA && IsUpdateOf(s.a, m) ==> Advance(e, s, Deliver(toA, m)) != s
  {
    hide Leads, Splits, HasShares, LacksShares, SignedAt, Advance;
    UnsignedInput(w, s, s.a.psbt, w.a);
    HalfSignedDiffers(w, s);
    DeliverWhileALeads(e, oa, ob, s, toA, m);
    var t := Advance(e, s, Deliver(toA, m));
    if t != s { SplitStays(w, s, s.a.psbt, t, t.b.psbt); }
  }

  lemma DeliverToComplete(e: Env, oa: Origin, ob: Origin, w: Split, s: System, toA: bool, m: Message)
    requires In(e, oa, ob, w, s, ToComplete) && m in s.sent
    ensures Advance(e, s, Deliver(toA, m)) == s
  {
    hide Splits, Kept, Known, Adoptable, HasShares;
    UnsignedInput(w, s, s.b.psbt, w.a);
    DeliverWhileBLeads(e, oa, ob, s, toA, m);
  }

  // -------------------------------------------------------------------------
  // Visits

  ghost predicate NewToGive(p: Psbt, at: set<nat>)
  {
    && (exists i :: 0 <= i < |p.inputs| && i in at && !CarriesSignature(p.inputs[i].held))
    && (Waiting(p, at) ==> LacksShares(p, at))
  }

  /** What an honest answer leaves behind. */
  ghost predicate Answered(p: Psbt, at: set<nat>, next: Psbt)
  {
    && Skeleton(p) == Skeleton(next) && |next.inputs| == |p.inputs|
    && (forall i, o :: 0 <= i < |p.inputs| && 0 <= o < |p.outputs| && p.outputs[o].info.Some? ==>
          (p.outputs[o].info.value.scan in next.inputs[i].held.shares <==>
            i in at || p.outputs[o].info.value.scan in p.inputs[i].held.shares))
    && (forall i :: 0 <= i < |p.inputs| ==>
          (CarriesSignature(next.inputs[i].held) <==>
            CarriesSignature(p.inputs[i].held) || (i in at && !Waiting(p, at))))
  }

  /** An honest signer's answer, when it is this wallet's turn, always moves it on. */
  lemma HonestVisit(e: Env, o: Origin, r: Record, at: set<nat>, answer: Psbt)
    requires Kept(e, o, r) && r.stage == Active && r.newest != Mine && r.outbox == []
    requires MyInputs(r.mine, r.psbt.inputs) == Some(at) && OneScan(r.psbt.outputs)
    requires NewToGive(r.psbt, at) && HonestAnswer(e, r.psbt, at, answer)
    ensures MyTurn(r) == Ok(true)
    ensures NextPass(e, r) == Ok(if Waiting(r.psbt, at) then ShareOnlyPass else SignPass)
    ensures Responded(e, r, answer).Ok? && Answered(r.psbt, at, Responded(e, r, answer).value.psbt)
    ensures var next := Responded(e, r, answer).value;
      next == r.(psbt := next.psbt, newest := Mine, visits := r.visits + 1, outbox := [UpdateMessage(next)])
  {
    hide Absorbed, HonestAnswer, Sound, Kept, Waiting, MyInputs, AllSharesOk, OneScan, Within, MyTurn;
    SoundUnlessProposing(e, o, r);
    SoundHasShares(e, r.psbt);
    HonestAnswerIsTaken(e, r.psbt, at, answer);
    var next := Absorbed(e, r.psbt, answer, Signer, at).value;
    AbsorbGrows(e, r.psbt, answer, Signer, at);
    TurnFor(r, at);
    if Waiting(r.psbt, at) { SharesAreNew(r.psbt, next, at); }
  }

  lemma TurnFor(r: Record, at: set<nat>)
    requires r.stage == Active && r.newest != Mine && MyInputs(r.mine, r.psbt.inputs) == Some(at)
    requires exists i :: 0 <= i < |r.psbt.inputs| && i in at && !CarriesSignature(r.psbt.inputs[i].held)
    ensures MyTurn(r) == Ok(true)
  { }

  lemma SharesAreNew(p: Psbt, next: Psbt, at: set<nat>)
    requires OneScan(p.outputs) && NewToGive(p, at) && Answered(p, at, next) && Waiting(p, at)
    ensures next != p
  { }

  /** A visit by the side that leads, seen from the system. */
  lemma VisitAdvances(e: Env, oa: Origin, ob: Origin, s: System, byA: bool, at: set<nat>, answer: Psbt)
    requires s.a.outbox == [] && s.b.outbox == []
    requires if byA then Leads(e, oa, ob, s.a, s.b, s.sent) else Leads(e, ob, oa, s.b, s.a, s.sent)
    requires var r := Side(s, byA);
      && r.stage == Active && r.newest != Mine && MyInputs(r.mine, r.psbt.inputs) == Some(at) && OneScan(r.psbt.outputs)
      && NewToGive(r.psbt, at) && HonestAnswer(e, r.psbt, at, answer)
    ensures var r, t := Side(s, byA), Advance(e, s, Visit(byA, answer));
      var r2 := Side(t, byA);
      && MyTurn(r) == Ok(true) && NextPass(e, r) == Ok(if Waiting(r.psbt, at) then ShareOnlyPass else SignPass)
      && r2 == r.(psbt := r2.psbt, newest := Mine, visits := r.visits + 1) && Side(t, !byA) == Side(s, !byA)
      && Answered(r.psbt, at, r2.psbt) && Underway(r2, t.sent)
      && (if byA then Leads(e, oa, ob, t.a, t.b, t.sent) else Leads(e, ob, oa, t.b, t.a, t.sent))
  {
    hide Leads, Responded, HonestAnswer, NewToGive, Answered, Waiting, MyTurn, NextPass, MyInputs;
    var r := Side(s, byA);
    LeadIsKept(e, oa, ob, s, byA);
    HonestVisit(e, if byA then oa else ob, r, at, answer);
    var next := Responded(e, r, answer).value;
    assert After(e, r, Answer(answer)) == next;
    if byA {
      VisitByLead(e, oa, ob, s.a, s.b, s.sent, answer);
    } else {
      VisitByLead(e, ob, oa, s.b, s.a, s.sent, answer);
    }
    OneToPost(s, byA, next, UpdateMessage(next));
    assert IsUpdateOf(next.(outbox := []), UpdateMessage(next));
  }

  lemma LeadIsKept(e: Env, oa: Origin, ob: Origin, s: System, byA: bool)
    requires if byA then Leads(e, oa, ob, s.a, s.b, s.sent) else Leads(e, ob, oa, s.b, s.a, s.sent)
    ensures Kept(e, if byA then oa else ob, Side(s, byA))
  { }

  /** First visit: B's signer, which can only add its shares. */
  lemma VisitToShare(e: Env, oa: Origin, ob: Origin, w: Split, s: System, answer: Psbt)
    requires In(e, oa, ob, w, s, ToShare) && HonestAnswer(e, s.b.psbt, w.b, answer)
    ensures MyTurn(s.b) == Ok(true) && NextPass(e, s.b) == Ok(ShareOnlyPass)
    ensures var t := Advance(e, s, Visit(false, answer)); In(e, oa, ob, w, t, Shared) && Left(t) < Left(s)
  {
    hide Leads, HonestAnswer, Advance, MyTurn, NextPass, MyInputs, HasShares, LacksShares, SignedAt, Waiting, Splits;
    SplitParts(w, s, s.b.psbt);
    LacksFewer(s.b.psbt, w.a + w.b, w.a);
    LacksFewer(s.b.psbt, w.a + w.b, w.b);
    WaitingForOthers(w, s, s.b.psbt, w.b);
    UnsignedOwn(w, s, s.b.psbt, w.b, {});
    VisitAdvances(e, oa, ob, s, false, w.b, answer);
    var t := Advance(e, s, Visit(false, answer));
    SplitStays(w, s, s.b.psbt, t, t.b.psbt);
    AnsweredScans(s.b.psbt, w.b, t.b.psbt);
  }

  /** Some input that is not in `at` lacks its shares. */
  lemma WaitingForOthers(w: Split, s: System, p: Psbt, at: set<nat>)
    requires Splits(w, s, p) && (at == w.a || at == w.b) && LacksShares(p, (w.a + w.b) - at)
    ensures Waiting(p, at)
  { }

  lemma UnsignedOwn(w: Split, s: System, p: Psbt, at: set<nat>, signed: set<nat>)
    requires Splits(w, s, p) && (at == w.a || at == w.b) && SignedAt(p, signed) && at !! signed
    ensures exists i :: 0 <= i < |p.inputs| && i in at && !CarriesSignature(p.inputs[i].held)
  { }

  /** The answer, in the terms the phases are stated in. */
  lemma AnsweredScans(p: Psbt, at: set<nat>, next: Psbt)
    requires Answered(p, at, next)
    ensures HasShares(next, at)
    ensures forall s :: HasShares(p, s) ==> HasShares(next, s + at)
    ensures forall s :: LacksShares(p, s) && s !! at ==> LacksShares(next, s)
    ensures forall s :: SignedAt(p, s) ==> SignedAt(next, if Waiting(p, at) then s else s + at)
  { }

  lemma NobodyWaits(w: Split, s: System, p: Psbt, at: set<nat>)
    requires Splits(w, s, p) && (at == w.a || at == w.b) && HasShares(p, (w.a + w.b) - at)
    ensures !Waiting(p, at)
  { }

  /** Second visit: A's signer, which has every other share and signs. */
  lemma VisitToSign(e: Env, oa: Origin, ob: Origin, w: Split, s: System, answer: Psbt)
    requires In(e, oa, ob, w, s, ToSign) && HonestAnswer(e, s.a.psbt, w.a, answer)
    ensures MyTurn(s.a) == Ok(true) && NextPass(e, s.a) == Ok(SignPass)
    ensures var t := Advance(e, s, Visit(true, answer)); In(e, oa, ob, w, t, HalfSigned) && Left(t) < Left(s)
  {
    hide Leads, HonestAnswer, Advance, MyTurn, NextPass, MyInputs, HasShares, LacksShares, SignedAt, Waiting, Splits;
    var p := s.a.psbt;
    SplitParts(w, s, p);
    NobodyWaits(w, s, p, w.a);
    UnsignedOwn(w, s, p, w.a, {});
    VisitAdvances(e, oa, ob, s, true, w.a, answer);
    var t := Advance(e, s, Visit(true, answer));
    LevelOfLead(e, oa, ob, s);
    SplitStays(w, s, p, t, t.a.psbt);
    AnsweredScans(p, w.a, t.a.psbt);
    assert w.b + w.a == w.a + w.b && {} + w.a == w.a;
  }

  lemma LevelOfLead(e: Env, oa: Origin, ob: Origin, s: System)
    requires Leads(e, oa, ob, s.a, s.b, s.sent) && s.a.stage == Active && s.a.newest != Mine && s.b.stage == Active
    ensures s.a.psbt == s.b.psbt
  { }

  lemma SplitParts(w: Split, s: System, p: Psbt)
    requires Splits(w, s, p)
    ensures MyInputs(s.a.mine, p.inputs) == Some(w.a) && MyInputs(s.b.mine, p.inputs) == Some(w.b) && OneScan(p.outputs)
    ensures (w.a + w.b) - w.a == w.b && (w.a + w.b) - w.b == w.a && w.a !! w.b
  { }

  /** Third visit: B's signer again, which now signs too, and then all is signed. */
  lemma VisitToComplete(e: Env, oa: Origin, ob: Origin, w: Split, s: System, answer: Psbt)
    requires In(e, oa, ob, w, s, ToComplete) && HonestAnswer(e, s.b.psbt, w.b, answer)
    ensures MyTurn(s.b) == Ok(true) && NextPass(e, s.b) == Ok(SignPass)
    ensures var t := Advance(e, s, Visit(false, answer)); In(e, oa, ob, w, t, Closing) && Left(t) < Left(s)
  {
    hide Leads, HonestAnswer, Advance, MyTurn, NextPass, MyInputs, HasShares, LacksShares, SignedAt, Waiting, Splits;
    var p := s.b.psbt;
    SplitParts(w, s, p);
    HasFewer(p, w.a + w.b, w.a);
    NobodyWaits(w, s, p, w.b);
    UnsignedOwn(w, s, p, w.b, w.a);
    VisitAdvances(e, oa, ob, s, false, w.b, answer);
    var t := Advance(e, s, Visit(false, answer));
    SplitStays(w, s, p, t, t.b.psbt);
    AnsweredScans(p, w.b, t.b.psbt);
    AllAreSigned(w, t, t.b.psbt);
    assert s.a.stage == Active && t.a == s.a;
  }

  lemma HasFewer(p: Psbt, more: set<nat>, fewer: set<nat>)
    requires HasShares(p, more) && fewer <= more
    ensures HasShares(p, fewer)
  { }

  lemma LacksFewer(p: Psbt, more: set<nat>, fewer: set<nat>)
    requires LacksShares(p, more) && fewer <= more
    ensures LacksShares(p, fewer)
  { }

  lemma AllAreSigned(w: Split, s: System, p: Psbt)
    requires Splits(w, s, p) && SignedAt(p, w.a + w.b)
    ensures AllSigned(p)
  { }

  /** A visit out of turn is refused and changes nothing. */
  lemma VisitRefused(e: Env, s: System, byA: bool, answer: Psbt)
    requires Side(s, byA).outbox == [] && Responded(e, Side(s, byA), answer).Err?
    ensures Advance(e, s, Visit(byA, answer)) == s
  { }

  lemma OutOfTurn(e: Env, r: Record, answer: Psbt)
    requires r.stage != Active || r.newest == Mine
    ensures Responded(e, r, answer).Err?
  { }

  // -------------------------------------------------------------------------
  // Broadcasts

  lemma NotReady(r: Record)
    requires !AllSigned(r.psbt)
    ensures !Ready(r)
  { if Ready(r) { AllInputsSigned(r.psbt); } }

  /** Nobody can broadcast before the last signature. */
  lemma TooEarlyToBroadcast(e: Env, oa: Origin, ob: Origin, w: Split, s: System, phase: Phase, byA: bool)
    requires In(e, oa, ob, w, s, phase) && phase != Closing
    ensures Advance(e, s, Broadcast(byA)) == s
  {
    hide Kept, Known, Adoptable, Splits, HasShares, LacksShares, FinalizedSession;
    var lead := if phase == ToSign || phase == HalfSigned then s.a.psbt else s.b.psbt;
    UnsignedInput(w, s, lead, if phase == HalfSigned || phase == ToComplete then w.a else {});
    assert s.a.stage == Active && Within(s.a.psbt, lead) && AllSigned(s.a.psbt) ==> AllSigned(lead) by {
      if Within(s.a.psbt, lead) && AllSigned(s.a.psbt) { SignedStaysSigned(s.a.psbt, lead); }
    }
    assert Within(s.b.psbt, lead) && AllSigned(s.b.psbt) ==> AllSigned(lead) by {
      if Within(s.b.psbt, lead) && AllSigned(s.b.psbt) { SignedStaysSigned(s.b.psbt, lead); }
    }
    WithinReflexive(lead);
    if !AllSigned(Side(s, byA).psbt) { NotReady(Side(s, byA)); }
  }

  // -------------------------------------------------------------------------
  // After the last signature

  /** Everything on its way is within the finished state, and what A may still get
    * from B is either that state or nothing new. */
  lemma ClosingMessage(e: Env, oa: Origin, ob: Origin, w: Split, s: System, m: Message)
    requires In(e, oa, ob, w, s, Closing) && m in s.sent && m.kind != ProposalKind
    ensures CarriesState(e, m) && Within(m.psbt.value, s.b.psbt)
    ensures s.a.psbt != s.b.psbt && m.from == s.b.me ==>
      m.psbt.value == s.b.psbt || (m.kind == UpdateKind && Within(m.psbt.value, s.a.psbt))
    ensures m.from == s.a.me || m.from == s.b.me
  {
    hide Kept, Sound, Adoptable, AllSigned, Recorded, Level;
    if Leads(e, ob, oa, s.b, s.a, s.sent) {
      assert Known(e, s.b, s.a, m);
      if m.kind == DoneKind && Within(m.psbt.value, s.a.psbt) && s.a.psbt != s.b.psbt {
        SignedStaysSigned(m.psbt.value, s.a.psbt);
        SignedIsLast(e, oa, ob, s);
      }
    } else {
      assert Known(e, s.a, s.b, m);
      SignedIsLast(e, oa, ob, s);
    }
  }

  /** Whichever side leads, a fully signed state is the last one. */
  lemma SignedIsLast(e: Env, oa: Origin, ob: Origin, s: System)
    requires Consistent(e, oa, ob, s) && s.a.stage != Proposing && s.b.stage != Proposing
    requires AllSigned(s.a.psbt) || (AllSigned(s.b.psbt) && Leads(e, oa, ob, s.a, s.b, s.sent))
    requires AllSigned(s.b.psbt)
    ensures s.a.psbt == s.b.psbt
  {
    hide Adoptable, Known, Sound, AllSigned, Level;
    if Leads(e, oa, ob, s.a, s.b, s.sent) {
      NothingAboveSigned(e, s.b.psbt, s.a.psbt);
    } else {
      NothingAboveSigned(e, s.a.psbt, s.b.psbt);
    }
  }

  ghost predicate MarkedDone(r: Record, next: Record)
  { r.stage == Active && next == r.(stage := Done, newest := next.newest, peer := next.peer, txid := next.txid) }

  /** A delivery to a side that holds the finished state changes nothing or marks it done. */
  lemma DeliverToFinished(e: Env, o: Origin, r: Record, m: Message)
    requires Kept(e, o, r) && r.stage != Proposing
    requires m.kind != ProposalKind ==> CarriesState(e, m) && Within(m.psbt.value, r.psbt)
    ensures After(e, r, Receive(m)) == r || MarkedDone(r, After(e, r, Receive(m)))
  {
    hide Kept, CarriesState, ReceivedUpdate, ReceivedDone;
    if !NotForMe(r, m) { KnownDelivery(e, o, r, m, r.psbt); }
  }

  /** A delivery to A while it still misses B's last signatures. */
  lemma DeliverToLate(e: Env, oa: Origin, ob: Origin, w: Split, s: System, m: Message)
    requires In(e, oa, ob, w, s, Closing) && m in s.sent && s.a.psbt != s.b.psbt
    ensures var next := After(e, s.a, Receive(m));
      && (next == s.a || (next == s.a.(psbt := s.b.psbt,
                              stage := next.stage, newest := next.newest, peer := next.peer, txid := next.txid)
          && next.stage != Proposing))
      && (IsUpdateOf(s.b, m) ==> next.psbt == s.b.psbt)
  {
    hide Leads, Sound, AllSigned, Recorded, ReceivedUpdate, ReceivedDone, Kept;
    ConsistentParts(e, oa, ob, s);
    if !NotForMe(s.a, m) {
      ClosingMessage(e, oa, ob, w, s, m);
      if m.psbt.value == s.b.psbt {
        WithinFull(e, oa, ob, s);
        KnownDelivery(e, oa, s.a, m, s.b.psbt);
        if m.kind == UpdateKind { OrderedUpdate(e, oa, s.a, m, s.b.psbt); }
      } else {
        OrderedUpdate(e, oa, s.a, m, s.a.psbt);
      }
    }
  }

  lemma ConsistentParts(e: Env, oa: Origin, ob: Origin, s: System)
    requires Consistent(e, oa, ob, s)
    ensures Kept(e, oa, s.a) && Kept(e, ob, s.b) && s.a.me != s.b.me && s.a.session == s.b.session
    ensures (s.a.peer.Some? ==> s.a.peer.value == s.b.me) && (s.b.peer.Some? ==> s.b.peer.value == s.a.me)
  { hide Kept, Known, Adoptable; }

  lemma WithinFull(e: Env, oa: Origin, ob: Origin, s: System)
    requires Consistent(e, oa, ob, s) && s.a.stage != Proposing && s.b.stage != Proposing && AllSigned(s.b.psbt)
    ensures Within(s.a.psbt, s.b.psbt)
  {
    hide Kept, Known, Adoptable, AllSigned;
    if Leads(e, oa, ob, s.a, s.b, s.sent) { SignedIsLast(e, oa, ob, s); WithinReflexive(s.a.psbt); }
  }

  lemma DeliverClosing(e: Env, oa: Origin, ob: Origin, w: Split, s: System, toA: bool, m: Message)
    requires In(e, oa, ob, w, s, Closing) && m in s.sent
    ensures var t := Advance(e, s, Deliver(toA, m));
      t == s || (In(e, oa, ob, w, t, Closing) && Left(t) < Left(s))
    ensures toA && IsUpdateOf(s.b, m) && s.a.psbt != s.b.psbt ==> Advance(e, s, Deliver(toA, m)) != s
  {
    hide Consistent, After, AllSigned, CarriesState;
    DeliverKeeps(e, oa, ob, s, toA, m);
    var next := After(e, Side(s, toA), Receive(m));
    if toA && s.a.psbt != s.b.psbt {
      DeliverToLate(e, oa, ob, w, s, m);
    } else {
      DeliverToEarly(e, oa, ob, w, s, toA, m);
    }
    NothingToPost(s, toA, next);
    var u :| u in s.sent && IsUpdateOf(s.b, u);
    assert !toA ==> IsUpdateOf(next, u);
  }

  lemma DeliverToEarly(e: Env, oa: Origin, ob: Origin, w: Split, s: System, toA: bool, m: Message)
    requires In(e, oa, ob, w, s, Closing) && m in s.sent && Side(s, toA).psbt == s.b.psbt
    ensures var next := After(e, Side(s, toA), Receive(m));
      next == Side(s, toA) || MarkedDone(Side(s, toA), next)
  {
    hide Consistent, After, AllSigned, CarriesState;
    ConsistentParts(e, oa, ob, s);
    if m.kind != ProposalKind { ClosingMessage(e, oa, ob, w, s, m); }
    DeliverToFinished(e, if toA then oa else ob, Side(s, toA), m);
  }

  lemma VisitClosing(e: Env, oa: Origin, ob: Origin, w: Split, s: System, byA: bool, answer: Psbt)
    requires In(e, oa, ob, w, s, Closing)
    ensures Advance(e, s, Visit(byA, answer)) == s
  {
    hide Consistent, Absorbed, MyInputs, AllSigned;
    var r := Side(s, byA);
    if r.stage == Active && r.newest != Mine {
      assert r.psbt == s.b.psbt;
      NoTurnLeft(r);
    }
    VisitRefused(e, s, byA, answer);
  }

  lemma NoTurnLeft(r: Record)
    requires AllSigned(r.psbt)
    ensures MyTurn(r).Err? || MyTurn(r) == Ok(false)
  {
    hide PositionOfCoin;
    if r.stage == Active && MyInputs(r.mine, r.psbt.inputs).Some? {
      var mine := MyInputs(r.mine, r.psbt.inputs).value;
      forall i | i in mine ensures i in SignedInputs(r.psbt) {
        var k :| 0 <= k < |r.mine| && PositionOfCoin(r.psbt.inputs, r.mine[k]).value == i;
        assert PositionOfCoin(r.psbt.inputs, r.mine[k]).Some?;
      }
    }
  }

  /** What a broadcast does to the system. */
  lemma BroadcastPosts(e: Env, oa: Origin, ob: Origin, s: System, byA: bool)
    requires Sides(e, oa, ob, s) && Ready(Side(s, byA))
    ensures var t := Advance(e, s, Broadcast(byA));
      && MarkedDone(Side(s, byA), Side(t, byA)) && Side(t, !byA) == Side(s, !byA) && s.sent <= t.sent
      && Sides(e, oa, ob, t)
    ensures AllSigned(Side(s, byA).psbt)
  {
    hide Consistent, After, FinalizedSession, CarriesState, AllSigned, Kept;
    var r, o := Side(s, byA), if byA then oa else ob;
    ConsistentParts(e, oa, ob, s);
    BroadcastIs(e, o, r);
    var id := e.txid(FinalizedSession(e, r).value.tx);
    OneToPost(s, byA, After(e, r, Finish(id)), DoneMessage(r, id));
    BroadcastKeeps(e, oa, ob, s, byA);
  }

  lemma BroadcastClosing(e: Env, oa: Origin, ob: Origin, w: Split, s: System, byA: bool)
    requires In(e, oa, ob, w, s, Closing)
    ensures var t := Advance(e, s, Broadcast(byA));
      t == s || (In(e, oa, ob, w, t, Closing) && Left(t) < Left(s))
    ensures Ready(Side(s, byA)) ==> Advance(e, s, Broadcast(byA)) != s
  {
    hide Consistent, Advance, AllSigned;
    if Ready(Side(s, byA)) {
      BroadcastPosts(e, oa, ob, s, byA);
      if byA { SignedIsLast(e, oa, ob, s); }
      var t := Advance(e, s, Broadcast(byA));
      var u :| u in s.sent && IsUpdateOf(s.b, u);
      assert IsUpdateOf(t.b, u) && u in t.sent;
    } else {
      UnreadyStays(e, s, byA);
    }
  }

  lemma UnreadyStays(e: Env, s: System, byA: bool)
    requires !Ready(Side(s, byA))
    ensures Advance(e, s, Broadcast(byA)) == s
  { }

  // -------------------------------------------------------------------------
  // Every honest run

  /** A visit, when it is that side's turn, is answered by its honest signer. */
  ghost predicate Honest(e: Env, s: System, move: Move)
  {
    move.Visit? ==>
      var r := Side(s, move.byA);
      MyTurn(r) == Ok(true) ==> HonestAnswer(e, r.psbt, MyInputs(r.mine, r.psbt.inputs).value, move.response)
  }

  ghost predicate AllHonest(e: Env, s: System, moves: seq<Move>)
  {
    moves == [] ||
      (AllHonest(e, s, moves[..|moves| - 1]) && Honest(e, Execute(e, s, moves[..|moves| - 1]), moves[|moves| - 1]))
  }

  /** Every move leaves the system alone or carries it forward: to the next phase,
    * or within the last one. The three visits are B adding its shares, A signing,
    * B signing. */
  lemma HonestMove(e: Env, oa: Origin, ob: Origin, w: Split, s: System, phase: Phase, move: Move)
    requires In(e, oa, ob, w, s, phase) && Honest(e, s, move)
    ensures var t := Advance(e, s, move);
      t == s || (In(e, oa, ob, w, t, NextPhase(phase)) && Left(t) < Left(s))
  {
    hide In, Advance, Left, Honest;
    match move
    case Deliver(toA, m) =>
      if m !in s.sent {
        Undelivered(e, s, toA, m);
      } else {
        match phase
        case ToShare => DeliverToShare(e, oa, ob, w, s, toA, m);
        case Shared => DeliverShared(e, oa, ob, w, s, toA, m);
        case ToSign => DeliverToSign(e, oa, ob, w, s, toA, m);
        case HalfSigned => DeliverHalfSigned(e, oa, ob, w, s, toA, m);
        case ToComplete => DeliverToComplete(e, oa, ob, w, s, toA, m);
        case Closing => DeliverClosing(e, oa, ob, w, s, toA, m);
      }
    case Visit(byA, answer) => HonestVisitMove(e, oa, ob, w, s, phase, byA, answer);
    case Broadcast(byA) =>
      if phase == Closing {
        BroadcastClosing(e, oa, ob, w, s, byA);
      } else {
        TooEarlyToBroadcast(e, oa, ob, w, s, phase, byA);
      }
  }

  lemma Undelivered(e: Env, s: System, toA: bool, m: Message)
    requires m !in s.sent
    ensures Advance(e, s, Deliver(toA, m)) == s
  { }

  /** Whose turn each phase is. */
  function Turn(phase: Phase): Option<bool>
  {
    match phase
    case ToShare => Some(false)
    case ToSign => Some(true)
    case ToComplete => Some(false)
    case _ => None
  }

  lemma NotItsTurn(e: Env, oa: Origin, ob: Origin, w: Split, s: System, phase: Phase, byA: bool, answer: Psbt)
    requires In(e, oa, ob, w, s, phase) && Turn(phase) != Some(byA)
    ensures Advance(e, s, Visit(byA, answer)) == s
  {
    hide Leads, Advance, Splits, HasShares, LacksShares, SignedAt, Responded;
    if phase == Closing {
      VisitClosing(e, oa, ob, w, s, byA, answer);
    } else {
      OutOfTurn(e, Side(s, byA), answer);
      VisitRefused(e, s, byA, answer);
    }
  }

  lemma TurnPositions(e: Env, oa: Origin, ob: Origin, w: Split, s: System, phase: Phase)
    requires In(e, oa, ob, w, s, phase) && Turn(phase).Some?
    ensures var r := Side(s, Turn(phase).value);
      && MyInputs(r.mine, r.psbt.inputs) == Some(if Turn(phase).value then w.a else w.b)
      && MyTurn(r) == Ok(true)
  {
    hide Leads, MyInputs, HasShares, LacksShares;
    var byA := Turn(phase).value;
    var r, at := Side(s, byA), if byA then w.a else w.b;
    UnsignedOwn(w, s, r.psbt, at, if phase == ToComplete then w.a else {});
    TurnFor(r, at);
  }

  lemma HonestVisitMove(e: Env, oa: Origin, ob: Origin, w: Split, s: System, phase: Phase, byA: bool, answer: Psbt)
    requires In(e, oa, ob, w, s, phase) && Honest(e, s, Visit(byA, answer))
    ensures var t := Advance(e, s, Visit(byA, answer));
      t == s || (In(e, oa, ob, w, t, NextPhase(phase)) && Left(t) < Left(s))
  {
    hide In, Advance, Left, MyTurn, MyInputs, HonestAnswer;
    if Turn(phase) != Some(byA) {
      NotItsTurn(e, oa, ob, w, s, phase, byA, answer);
    } else {
      TurnPositions(e, oa, ob, w, s, phase);
      match phase
      case ToShare => VisitToShare(e, oa, ob, w, s, answer);
      case ToSign => VisitToSign(e, oa, ob, w, s, answer);
      case ToComplete => VisitToComplete(e, oa, ob, w, s, answer);
      case _ =>
    }
  }

  /** How many moves of a run changed anything. */
  function Effective(e: Env, s: System, moves: seq<Move>): nat
  {
    if moves == [] then 0 else
    var before := Execute(e, s, moves[..|moves| - 1]);
    Effective(e, s, moves[..|moves| - 1]) + if Advance(e, before, moves[|moves| - 1]) == before then 0 else 1
  }

  /** In every honest run, whatever the channel repeats, delays or reorders, the
    * system is in one of the phases, and only so many moves can matter. */
  lemma {:induction false} EveryHonestRun(e: Env, oa: Origin, ob: Origin, w: Split, s: System, moves: seq<Move>)
    returns (phase: Phase)
    requires In(e, oa, ob, w, s, ToShare) && AllHonest(e, s, moves)
    ensures In(e, oa, ob, w, Execute(e, s, moves), phase)
    ensures Effective(e, s, moves) + Left(Execute(e, s, moves)) <= Left(s)
  {
    hide In, Advance, Left, Honest;
    phase := ToShare;
    if moves != [] {
      var most, last := moves[..|moves| - 1], moves[|moves| - 1];
      phase := EveryHonestRun(e, oa, ob, w, s, most);
      var before := Execute(e, s, most);
      HonestMove(e, oa, ob, w, before, phase, last);
      if Advance(e, before, last) != before { phase := NextPhase(phase); }
    }
  }

  // -------------------------------------------------------------------------
  // Nobody is ever stuck

  ghost predicate Delivers(e: Env, s: System, toA: bool)
  { exists m :: m in s.sent && Left(Advance(e, s, Deliver(toA, m))) < Left(s) }

  ghost predicate Broadcasts(e: Env, s: System)
  { exists byA :: Left(Advance(e, s, Broadcast(byA))) < Left(s) }

  /** What this side's device answers to the session's request, it being its turn, is
    * honest and carries the run forward. */
  ghost predicate Visits(e: Env, s: System, byA: bool, d: ReferenceSigner.Device)
  {
    var r := Side(s, byA);
    && MyTurn(r) == Ok(true) && NextPass(e, r).Ok? && MyInputs(r.mine, r.psbt.inputs).Some?
    && var mine := MyInputs(r.mine, r.psbt.inputs).value;
    && Requested(r) == Ok(SignerRequest(r.psbt, mine))
    && var outcome := ReferenceSigner.Answered(e, d, SignerRequest(r.psbt, mine));
    && !outcome.Refused? && HonestAnswer(e, r.psbt, mine, outcome.answer)
    && Left(Advance(e, s, Visit(byA, outcome.answer))) < Left(s)
  }

  /** Each wallet's device holds the keys of its own coins and works, and a lone sender
    * with all of them could pay the recipient. */
  ghost predicate Equipped(e: Env, w: Split, da: ReferenceSigner.Device, db: ReferenceSigner.Device)
  {
    && PrimeOrder(e.curve) && Dleq.Sound(e.curve) && ReferenceSigner.Payable(e, w.skeleton)
    && ReferenceSigner.OwnsExactly(e, da, w.skeleton, w.a) && ReferenceSigner.Works(e, da, w.skeleton)
    && ReferenceSigner.OwnsExactly(e, db, w.skeleton, w.b) && ReferenceSigner.Works(e, db, w.skeleton)
  }

  lemma EquippedForState(e: Env, p: Psbt, q: Psbt, d: ReferenceSigner.Device, at: set<nat>)
    requires Skeleton(p) == q
    requires ReferenceSigner.Payable(e, q) && ReferenceSigner.OwnsExactly(e, d, q, at) && ReferenceSigner.Works(e, d, q)
    ensures ReferenceSigner.Payable(e, p) && ReferenceSigner.OwnsExactly(e, d, p, at) && ReferenceSigner.Works(e, d, p)
  {
    hide Rank, LoneSender, ReferenceSigner.Owns, ReferenceSigner.Proves, InputKey, Sum;
    assert |p.inputs| == |q.inputs| && |p.outputs| == |q.outputs|;
    forall i | 0 <= i < |p.inputs|
      ensures p.inputs[i].fact == q.inputs[i].fact
    { assert q.inputs[i] == BareInput(p.inputs[i]); }
    forall o | 0 <= o < |p.outputs|
      ensures p.outputs[o].info == q.outputs[o].info
    { assert q.outputs[o] == BareOutput(p.outputs[o]); }
    assert KeysOf(e, p.inputs) == KeysOf(e, q.inputs) && CoinsOf(p.inputs) == CoinsOf(q.inputs);
    assert ReferenceSigner.ScanKeys(p.outputs) == ReferenceSigner.ScanKeys(q.outputs);
    forall o | 0 <= o < |p.outputs| && p.outputs[o].info.Some?
      ensures Rank(e.curve, p.outputs, o) == Rank(e.curve, q.outputs, o)
    {
      SameRank(e.curve, p.outputs, q.outputs, o);
    }
  }

  /** In its turn, a wallet with a working device gets an honest answer. */
  lemma DeviceAnswers(e: Env, o: Origin, r: Record, w: Split, s: System, at: set<nat>, d: ReferenceSigner.Device)
    requires Kept(e, o, r) && r.stage == Active && Splits(w, s, r.psbt) && (at == w.a || at == w.b)
    requires PrimeOrder(e.curve) && Dleq.Sound(e.curve) && ReferenceSigner.Payable(e, w.skeleton)
    requires ReferenceSigner.OwnsExactly(e, d, w.skeleton, at) && ReferenceSigner.Works(e, d, w.skeleton)
    ensures var outcome := ReferenceSigner.Answered(e, d, SignerRequest(r.psbt, at));
      !outcome.Refused? && HonestAnswer(e, r.psbt, at, outcome.answer)
  {
    hide Kept, Sound, OneScan, HonestAnswer, PrimeOrder, Dleq.Sound, ReferenceSigner.Payable,
         ReferenceSigner.OwnsExactly,
      ReferenceSigner.Works, ReferenceSigner.Answered, ReferenceSigner.Ordinary, Skeleton;
    SoundUnlessProposing(e, o, r);
    EquippedForState(e, r.psbt, w.skeleton, d, at);
    OneOnEachSide(w, s, r.psbt, at);
    ReferenceSigner.AnswerIsHonest(e, d, r.psbt, at);
  }

  lemma OneOnEachSide(w: Split, s: System, p: Psbt, at: set<nat>)
    requires Splits(w, s, p) && (at == w.a || at == w.b)
    ensures (exists i :: 0 <= i < |p.inputs| && i in at) && (exists i :: 0 <= i < |p.inputs| && i !in at)
  {
    hide OneScan, Skeleton, ReferenceSigner.Ordinary, MyInputs;
    var a: nat :| a in w.a;
    var b: nat :| b in w.b;
    assert a in w.a + w.b && b in w.a + w.b;
  }

  lemma TurnIsKeptSide(e: Env, oa: Origin, ob: Origin, w: Split, s: System, phase: Phase)
    requires In(e, oa, ob, w, s, phase) && Turn(phase).Some?
    ensures var r := Side(s, Turn(phase).value);
      && Kept(e, if Turn(phase).value then oa else ob, r) && r.stage == Active && Splits(w, s, r.psbt)
  {
    hide Leads, Kept, HasShares, LacksShares, SignedAt, Splits;
    LeadIsKept(e, oa, ob, s, Turn(phase).value);
  }

  lemma TurnVisits(e: Env, oa: Origin, ob: Origin, w: Split, s: System, phase: Phase, d: ReferenceSigner.Device)
    requires In(e, oa, ob, w, s, phase) && Turn(phase).Some?
    requires PrimeOrder(e.curve) && Dleq.Sound(e.curve) && ReferenceSigner.Payable(e, w.skeleton)
    requires var at := if Turn(phase).value then w.a else w.b;
      ReferenceSigner.OwnsExactly(e, d, w.skeleton, at) && ReferenceSigner.Works(e, d, w.skeleton)
    ensures Visits(e, s, Turn(phase).value, d)
  {
    hide In, Advance, Left, HonestAnswer, PrimeOrder, Dleq.Sound, ReferenceSigner.Payable, ReferenceSigner.OwnsExactly,
      ReferenceSigner.Works, ReferenceSigner.Answered, Kept, Splits, MyInputs, MyTurn;
    var byA := Turn(phase).value;
    var at := if byA then w.a else w.b;
    TurnPositions(e, oa, ob, w, s, phase);
    TurnIsKeptSide(e, oa, ob, w, s, phase);
    DeviceAnswers(e, if byA then oa else ob, Side(s, byA), w, s, at, d);
    var answer := ReferenceSigner.Answered(e, d, SignerRequest(Side(s, byA).psbt, at)).answer;
    match phase
    case ToShare => VisitToShare(e, oa, ob, w, s, answer);
    case ToSign => VisitToSign(e, oa, ob, w, s, answer);
    case ToComplete => VisitToComplete(e, oa, ob, w, s, answer);
  }

  /** In each phase there is a move that carries the run forward: the visit of the
    * side whose turn it is, the delivery of the newest state, a broadcast; or both
    * sides are done. */
  lemma NeverStuck(e: Env, oa: Origin, ob: Origin, w: Split, s: System, phase: Phase,
                   da: ReferenceSigner.Device, db: ReferenceSigner.Device)
    requires In(e, oa, ob, w, s, phase) && Equipped(e, w, da, db)
    ensures match phase
      case ToShare => Visits(e, s, false, db)
      case Shared => Delivers(e, s, true)
      case ToSign => Visits(e, s, true, da)
      case HalfSigned => Delivers(e, s, false)
      case ToComplete => Visits(e, s, false, db)
      case Closing => (s.a.stage == Done && s.b.stage == Done) || Delivers(e, s, true) || Broadcasts(e, s)
  {
    hide Leads, Advance, Left, Splits, HasShares, LacksShares, SignedAt, MyTurn, AllSigned, Consistent, Visits,
      PrimeOrder, Dleq.Sound, ReferenceSigner.Payable, ReferenceSigner.OwnsExactly, ReferenceSigner.Works;
    match phase
    case Shared =>
      var m :| m in s.sent && IsUpdateOf(s.b, m);
      DeliverShared(e, oa, ob, w, s, true, m);
    case HalfSigned =>
      var m :| m in s.sent && IsUpdateOf(s.a, m);
      DeliverHalfSigned(e, oa, ob, w, s, false, m);
    case Closing => ClosingMoves(e, oa, ob, w, s);
    case ToSign => TurnVisits(e, oa, ob, w, s, phase, da);
    case _ => TurnVisits(e, oa, ob, w, s, phase, db);
  }

  lemma ClosingMoves(e: Env, oa: Origin, ob: Origin, w: Split, s: System)
    requires In(e, oa, ob, w, s, Closing)
    ensures (s.a.stage == Done && s.b.stage == Done) || Delivers(e, s, true) || Broadcasts(e, s)
  {
    hide Leads, Advance, Left, AllSigned, Consistent;
    if s.a.psbt != s.b.psbt {
      var m :| m in s.sent && IsUpdateOf(s.b, m);
      DeliverClosing(e, oa, ob, w, s, true, m);
    } else if s.b.stage != Done {
      SignedIsReady(s.b);
      BroadcastClosing(e, oa, ob, w, s, false);
    } else if s.a.stage != Done {
      SignedIsReady(s.a);
      BroadcastClosing(e, oa, ob, w, s, true);
    }
  }

  lemma SignedIsReady(r: Record)
    requires r.stage == Active && AllSigned(r.psbt)
    ensures Ready(r)
  {
    CountToN(SignedInputs(r.psbt), |r.psbt.inputs|);
  }

  /** When both are done they made three visits between them and hold one and the
    * same transaction id. */
  lemma BothDone(e: Env, oa: Origin, ob: Origin, w: Split, s: System, phase: Phase)
    requires In(e, oa, ob, w, s, phase) && s.a.stage == Done && s.b.stage == Done
    ensures s.a.visits == 1 && s.b.visits == 2
    ensures s.a.psbt == s.b.psbt && s.a.txid == s.b.txid && s.a.txid.Some?
  {
    hide Leads, Splits, HasShares, LacksShares, SignedAt, AllSigned;
    OneTransaction(e, oa, ob, s);
  }

  // -------------------------------------------------------------------------
  // From the join to the end

  function At(mine: seq<OutPoint>, inputs: seq<Input>): set<nat>
  { set i | 0 <= i < |inputs| && inputs[i].fact.coin in mine }

  lemma InputsAreAt(mine: seq<OutPoint>, p: Psbt)
    requires NoCoinTwice(p) && AllThere(mine, p.inputs)
    ensures MyInputs(mine, p.inputs) == Some(At(mine, p.inputs))
  {
    var found := MyInputs(mine, p.inputs).value;
    forall i | i in At(mine, p.inputs) ensures i in found {
      var k :| 0 <= k < |mine| && mine[k] == p.inputs[i].fact.coin;
      assert PositionOfCoin(p.inputs, mine[k]) == Some(i);
    }
    assert found == At(mine, p.inputs);
  }

  ghost function SplitOf(s: System): Split
  { Split(At(s.a.mine, s.b.psbt.inputs), At(s.b.mine, s.b.psbt.inputs), Skeleton(s.b.psbt)) }

  /** After the join every input is one wallet's or the other's. */
  lemma JoinSplits(s: System, before: seq<Input>)
    requires NoCoinTwice(s.b.psbt) && before != [] && before < s.b.psbt.inputs && OneScan(s.b.psbt.outputs)
    requires s.a.mine == CoinsOf(before) && s.b.mine == OwnCoins(s.b.psbt.inputs, s.a.mine)
    requires ReferenceSigner.Ordinary(s.b.psbt)
    ensures Splits(SplitOf(s), s, s.b.psbt)
  {
    hide OneScan, ReferenceSigner.Ordinary, Skeleton, OwnCoins, PositionOfCoin, At, AllThere;
    var p, w := s.b.psbt, SplitOf(s);
    JoinedAt(s, before);
    assert 0 in w.a && |before| in w.b;
    AllOfThemThere(s, before);
    InputsAreAt(s.a.mine, p);
    InputsAreAt(s.b.mine, p);
  }

  lemma JoinedAt(s: System, before: seq<Input>)
    requires NoCoinTwice(s.b.psbt) && before < s.b.psbt.inputs
    requires s.a.mine == CoinsOf(before) && s.b.mine == OwnCoins(s.b.psbt.inputs, s.a.mine)
    ensures forall i: nat :: i in At(s.a.mine, s.b.psbt.inputs) <==> i < |before|
    ensures forall i: nat :: i in At(s.b.mine, s.b.psbt.inputs) <==> |before| <= i < |s.b.psbt.inputs|
  {
    hide OwnCoins;
    var p := s.b.psbt;
    forall i | 0 <= i < |p.inputs| ensures p.inputs[i].fact.coin in s.a.mine <==> i < |before| {
      if i < |before| { assert s.a.mine[i] == p.inputs[i].fact.coin; }
      else { assert forall k :: 0 <= k < |before| ==> s.a.mine[k] == p.inputs[k].fact.coin; }
    }
  }

  lemma AllOfThemThere(s: System, before: seq<Input>)
    requires before < s.b.psbt.inputs
    requires s.a.mine == CoinsOf(before) && s.b.mine == OwnCoins(s.b.psbt.inputs, s.a.mine)
    ensures AllThere(s.a.mine, s.b.psbt.inputs) && AllThere(s.b.mine, s.b.psbt.inputs)
  {
    hide OwnCoins, PositionOfCoin;
    var p := s.b.psbt;
    forall k | 0 <= k < |s.a.mine| ensures PositionOfCoin(p.inputs, s.a.mine[k]).Some? {
      assert p.inputs[k].fact.coin == s.a.mine[k];
    }
    forall k | 0 <= k < |s.b.mine|
      ensures PositionOfCoin(p.inputs, s.b.mine[k]).Some?
    { assert s.b.mine[k] in s.b.mine; }
  }

  lemma PaysOneScan(outputs: seq<Output>, to: Address, sats: nat)
    requires PaysAgreed(outputs, to, sats)
    ensures OneScan(outputs)
  {
    SilentOutputExists(outputs);
    forall i | 0 <= i < |outputs| && outputs[i].info.Some? ensures outputs[i].info.value == InfoOf(to) {
      assert IsPayment(outputs[i], to, sats);
    }
  }

  lemma MeetingStarts(e: Env, w: Meeting)
    requires Met(e, w)
    ensures In(e, OriginA(e, w), OriginB(e, w), SplitOf(StartOf(e, w)), StartOf(e, w), ToShare)
  {
    hide Kept, Leads, CheckedProposal, HalfAsV2, OriginA, OriginB, ReadProposal, Clean, Adoptable, Level, Known,
         Consistent, Sound;
    var s := StartOf(e, w);
    MeetingIsConsistent(e, w);
    MeetingIsKept(e, w);
    ProposedStage(e, w);
    MeetingFacts(e, w);
    PaysOneScan(s.b.psbt.outputs, w.proposal.to, w.proposal.sats);
    MeetingIsOrdinary(e, w);
    JoinSplits(s, w.a.psbt.inputs);
    NothingGivenYet(e, s.b.psbt, SplitOf(s).a + SplitOf(s).b);
    BLeadsAtStart(e, w);
  }

  /** BDK builds both halves without lock-time requests, and every ordinary output
    * pays some script. */
  lemma MeetingIsOrdinary(e: Env, w: Meeting)
    requires Met(e, w)
    ensures ReferenceSigner.Ordinary(StartOf(e, w).b.psbt)
  {
    hide Kept, CheckedProposal, OriginA, OriginB, ReadProposal, Joined, Clean, HalfAsV2, ProposedSession;
    MeetingIsKept(e, w);
    var p := StartOf(e, w).b.psbt;
    assert p == Joined(e, w.proposal, w.halfB).value;
    JoinedParts(e, w.proposal, w.halfB);
    ProposalIsOrdinary(e, w);
    var (mine, placeholder) := HalfAsV2(e, w.halfB, w.proposal.to, ShareOfAmount(w.proposal.sats, Join),
        w.proposal.feeRate).value;
    HalfIsOrdinary(e, w.halfB, w.proposal.to, ShareOfAmount(w.proposal.sats, Join), w.proposal.feeRate);
    var before := |w.a.psbt.outputs|;
    forall o | before <= o < |p.outputs| && p.outputs[o].info.None? ensures p.outputs[o].script != NO_SCRIPT {
      assert p.outputs[o] == mine.outputs[if o - before < placeholder then o - before else o - before + 1];
    }
  }

  lemma HalfIsOrdinary(e: Env, half: Half, to: Address, share: nat, feeRate: nat)
    requires HalfAsV2(e, half, to, share, feeRate).Ok?
    ensures var (psbt, index) := HalfAsV2(e, half, to, share, feeRate).value;
      && (forall i :: 0 <= i < |psbt.inputs| ==> !AsksLockTime(psbt.inputs[i]))
      && (HasScripts(half) ==>
            forall o :: 0 <= o < |psbt.outputs| && o != index ==> psbt.outputs[o].script != NO_SCRIPT)
  { hide CheckInput; }

  lemma ProposalIsOrdinary(e: Env, w: Meeting)
    requires Met(e, w) && w.proposal.psbt == w.a.psbt
    ensures ReferenceSigner.Ordinary(w.a.psbt)
  {
    hide CheckInput, HalfAsV2, JoinedSession;
    HalfIsOrdinary(e, w.halfA, w.a.to, ShareOfAmount(w.a.sats, Start), w.a.feeRate);
    var theirs := ProposalMessage(w.a).psbt.value;
    forall o | 0 <= o < |w.a.psbt.outputs| && w.a.psbt.outputs[o].info.None?
      ensures w.a.psbt.outputs[o].script != NO_SCRIPT
    {
      assert ProposedOutputOk(theirs.outputs[o], w.a.to, w.a.sats);
    }
  }

  lemma BLeadsAtStart(e: Env, w: Meeting)
    requires Met(e, w) && Consistent(e, OriginA(e, w), OriginB(e, w), StartOf(e, w))
    ensures Leads(e, OriginB(e, w), OriginA(e, w), StartOf(e, w).b, StartOf(e, w).a, StartOf(e, w).sent)
  {
    hide Kept, Adoptable, Known;
    ProposedStage(e, w);
  }

  lemma NothingGivenYet(e: Env, p: Psbt, at: set<nat>)
    requires Clean(e, p)
    ensures LacksShares(p, at) && SignedAt(p, {})
  { }

  lemma MeetingFacts(e: Env, w: Meeting)
    requires Met(e, w)
    ensures var s := StartOf(e, w);
      && s.b.stage == Active && s.b.newest == JustJoined && s.b.visits == 0 && s.a.outbox == [] && s.b.outbox == []
      && s.a.mine == CoinsOf(w.a.psbt.inputs) && s.b.mine == OwnCoins(s.b.psbt.inputs, s.a.mine)
      && w.a.psbt.inputs < s.b.psbt.inputs && w.a.psbt.inputs != []
      && NoCoinTwice(s.b.psbt) && PaysAgreed(s.b.psbt.outputs, w.proposal.to, w.proposal.sats) && Clean(e, s.b.psbt)
  {
    hide Kept, CheckedProposal, HalfAsV2, OriginA, OriginB, ReadProposal, Joined, Proposed, Sound;
    MeetingIsKept(e, w);
    JoinedIsSound(e, w.proposal, w.halfB);
    assert CoinsOf(w.a.psbt.inputs) == Coins(w.a.psbt);
  }

  /** Two wallets that met, with honest signers and any channel: at most one turn at
    * any time, at most 27 moves that change anything, and as long as the payment is
    * not recorded on both sides some move carries it forward. When none is left,
    * both recorded one transaction, after three visits between them. */
  lemma SharedSendCompletes(e: Env, w: Meeting, moves: seq<Move>) returns (phase: Phase)
    requires Met(e, w) && AllHonest(e, StartOf(e, w), moves)
    ensures var s := Execute(e, StartOf(e, w), moves);
      && In(e, OriginA(e, w), OriginB(e, w), SplitOf(StartOf(e, w)), s, phase)
      && (MyTurn(s.a) == Ok(false) || MyTurn(s.b) == Ok(false))
      && Effective(e, StartOf(e, w), moves) + Left(s) <= 27
      && (s.a.stage == Done && s.b.stage == Done ==>
            s.a.visits == 1 && s.b.visits == 2 && s.a.txid == s.b.txid && s.a.txid.Some?)
      && (Left(s) == 0 ==> s.a.stage == Done && s.b.stage == Done)
  {
    hide In, Met, Execute, Effective, AllHonest, Left, MyTurn;
    var start, split := StartOf(e, w), SplitOf(StartOf(e, w));
    MeetingStarts(e, w);
    phase := EveryHonestRun(e, OriginA(e, w), OriginB(e, w), split, start, moves);
    var s := Execute(e, start, moves);
    EveryRunOfTwo(e, w, moves);
    LeftAtStart(e, OriginA(e, w), OriginB(e, w), split, start);
    if s.a.stage == Done && s.b.stage == Done { BothDone(e, OriginA(e, w), OriginB(e, w), split, s, phase); }
    NothingLeft(e, OriginA(e, w), OriginB(e, w), split, s, phase);
  }

  lemma LeftAtStart(e: Env, oa: Origin, ob: Origin, w: Split, s: System)
    requires In(e, oa, ob, w, s, ToShare)
    ensures Left(s) == 27
  { hide Leads, Splits, LacksShares, SignedAt; }

  lemma NothingLeft(e: Env, oa: Origin, ob: Origin, w: Split, s: System, phase: Phase)
    requires In(e, oa, ob, w, s, phase)
    ensures Left(s) == 0 ==> s.a.stage == Done && s.b.stage == Done
  { hide Leads, Splits, LacksShares, HasShares, SignedAt, Consistent; }
}
