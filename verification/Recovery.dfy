/** What a shared send survives: being killed at any point of any step, any number
  * of times. */
module Recovery {
  import opened Wrappers
  import opened Chain
  import opened PsbtV2
  import opened Soundness
  import opened Building
  import opened Joining
  import opened Finishing
  import opened SharedSession
  import opened Safety
  import opened SharedFlow
  import Absorb

  // -------------------------------------------------------------------------
  // One step, killed or not

  ghost predicate KeptByOne(e: Env, r: Record)
  { exists o :: Kept(e, o, r) }

  /** The session in the file is one a wallet can rely on, and whatever was ever
    * broadcast is its transaction. */
  ghost predicate Healthy(e: Env, w: World)
  {
    match w.disk.session
    case None => w.broadcasts == []
    case Some(r) => KeptByOne(e, r) && forall id :: id in w.broadcasts ==>
      r.stage != Proposing && Recorded(e, r.psbt, Some(id))
  }

  lemma HandledIsKept(e: Env, me: nat, terms: Option<Terms>, session: Option<Record>, text: Option<Message>,
                      half: Option<Half>)
    requires session.Some? ==> KeptByOne(e, session.value)
    requires Handled(e, me, terms, session, text, half).Ok? && Handled(e, me, terms, session, text, half).value.Some?
    ensures KeptByOne(e, Handled(e, me, terms, session, text, half).value.value)
    ensures session.Some? ==>
      var next := Handled(e, me, terms, session, text, half).value.value;
      session.value.stage != Proposing ==> next.stage != Proposing && Within(session.value.psbt, next.psbt)
  {
    hide Kept, Received, JoinedSession, ReadProposal;
    if session.Some? {
      WithinReflexive(session.value.psbt);
      var o :| Kept(e, o, session.value);
      if text.Some? && Received(e, session.value, text.value).Ok? {
        ReceiveKeeps(e, o, session.value, text.value);
        ReceiveStays(e, session.value, text.value);
      }
    } else {
      var proposal := ReadProposal(e, text.value, me).value;
      ReadProposalChecks(e, text.value, me);
      JoiningIsKept(e, me, proposal, half.value);
    }
  }

  lemma ReceiveStays(e: Env, r: Record, m: Message)
    requires Received(e, r, m).Ok?
    ensures r.stage != Proposing ==> Received(e, r, m).value.0.stage != Proposing
  { }

  lemma LaterRecords(e: Env, p: Psbt, q: Psbt, id: nat)
    requires Within(p, q) && Recorded(e, p, Some(id))
    ensures Recorded(e, q, Some(id))
  { TransactionIsFixed(p, q); }

  lemma FirstTakenIsKept(e: Env, o: Origin, r: Record, answers: seq<Psbt>)
    requires Kept(e, o, r) && FirstTaken(e, r, answers).Some?
    ensures Kept(e, o, FirstTaken(e, r, answers).value)
    ensures r.stage == Active && FirstTaken(e, r, answers).value.stage == Active
    ensures Within(r.psbt, FirstTaken(e, r, answers).value.psbt)
    ensures exists m :: FirstTaken(e, r, answers).value.outbox == r.outbox + [m]
  {
    hide Kept, Responded;
    if Responded(e, r, answers[0]).Ok? {
      RespondKeeps(e, o, r, answers[0]);
      RespondGrows(e, o, r, answers[0]);
    } else {
      FirstTakenIsKept(e, o, r, answers[1..]);
    }
  }

  lemma RespondGrows(e: Env, o: Origin, r: Record, answer: Psbt)
    requires Kept(e, o, r) && Responded(e, r, answer).Ok?
    ensures var next := Responded(e, r, answer).value;
      Within(r.psbt, next.psbt) && next.stage == r.stage && exists m :: next.outbox == r.outbox + [m]
  {
    hide Kept, MyInputs, Absorb.Absorbed, Sound;
    SoundUnlessProposing(e, o, r);
    AbsorbGrows(e, r.psbt, answer, Absorb.Signer, MyInputs(r.mine, r.psbt.inputs).value);
  }

  /** What a step can do to the session in the file. */
  lemma WholeIsKept(e: Env, me: nat, terms: Option<Terms>, disk: Saved, waited: bool, c: Choices)
    requires disk.session.Some? ==> KeptByOne(e, disk.session.value)
    ensures var whole := Step(e, me, terms, disk, waited, c);
      && (whole.disk.session.Some? ==> KeptByOne(e, whole.disk.session.value))
      && (disk.session.Some? ==> whole.disk.session.Some? && Follows(disk.session.value, whole.disk.session.value))
      && (disk.session.None? ==> whole.broadcasts == [])
      && (forall id :: id in whole.broadcasts ==>
            disk.session.value.stage != Proposing && Recorded(e, disk.session.value.psbt, Some(id)))
  {
    hide Kept, KeptByOne, Handled, FirstTaken, FinalizedSession, Finished, NextInInbox, MyTurn, NextPass, Recorded,
         Ready, Follows;
    if disk.session.None? {
      if disk.inbox != [] { WholeIsHandled(e, me, terms, disk, waited, c); }
    } else {
      FollowsItself(disk.session.value);
      if Outbox(disk) != [] {
        SendingKeeps(e, disk.session.value);
      } else if disk.inbox != [] {
        WholeIsHandled(e, me, terms, disk, waited, c);
      } else {
        ReadyIsKept(e, disk, disk.session.value, waited, c);
        VisitIsKept(e, disk, disk.session.value, waited, c);
      }
    }
  }

  /** Joined stays joined, and nothing gathered is lost. */
  ghost predicate Follows(r: Record, next: Record)
  { r.stage != Proposing ==> next.stage != Proposing && Within(r.psbt, next.psbt) }

  lemma FollowsItself(r: Record)
    ensures Follows(r, r)
  { }

  lemma SendingKeeps(e: Env, r: Record)
    requires KeptByOne(e, r)
    ensures KeptByOne(e, r.(outbox := [])) && Follows(r, r.(outbox := []))
  {
    var o :| Kept(e, o, r);
    assert Kept(e, o, r.(outbox := []));
    WithinReflexive(r.psbt);
  }

  lemma WholeIsHandled(e: Env, me: nat, terms: Option<Terms>, disk: Saved, waited: bool, c: Choices)
    requires disk.session.Some? ==> KeptByOne(e, disk.session.value)
    requires Outbox(disk) == [] && disk.inbox != []
    ensures var whole := Step(e, me, terms, disk, waited, c);
      && (whole.disk.session.Some? ==> KeptByOne(e, whole.disk.session.value))
      && (disk.session.Some? ==> whole.disk.session.Some? && Follows(disk.session.value, whole.disk.session.value))
      && whole.broadcasts == []
  {
    hide Kept, KeptByOne, Received, Considered;
    var next := NextInInbox(disk);
    var handled := Handled(e, me, terms, disk.session, disk.inbox[next], c.half);
    if handled.Ok? && handled.value.Some? { HandledIsKept(e, me, terms, disk.session, disk.inbox[next], c.half); }
    if disk.session.Some? { FollowsItself(disk.session.value); }
  }

  lemma ReadyIsKept(e: Env, disk: Saved, r: Record, waited: bool, c: Choices)
    requires disk.session == Some(r) && KeptByOne(e, r)
    ensures var whole := StepReady(e, disk, r, waited, c);
      && whole.disk.session.Some? && KeptByOne(e, whole.disk.session.value) && Follows(r, whole.disk.session.value)
      && forall id :: id in whole.broadcasts ==> r.stage != Proposing && Recorded(e, r.psbt, Some(id))
  {
    hide KeptByOne, Finished, FinalizedSession, Recorded, Follows;
    FollowsItself(r);
    if FinalizedSession(e, r).Ok? { FinishingKeeps(e, r); }
  }

  lemma FinishingKeeps(e: Env, r: Record)
    requires KeptByOne(e, r) && FinalizedSession(e, r).Ok?
    ensures var id := e.txid(FinalizedSession(e, r).value.tx);
      && r.stage != Proposing && Recorded(e, r.psbt, Some(id))
      && (Finished(e, r, id).Ok? ==> KeptByOne(e, Finished(e, r, id).value) && Follows(r, Finished(e, r, id).value))
  {
    hide Kept, Finished, UnsignedTransaction;
    var o :| Kept(e, o, r);
    FinalizedMeans(e, r.psbt);
    var id := e.txid(FinalizedSession(e, r).value.tx);
    if Finished(e, r, id).Ok? {
      FinishKeeps(e, o, r, id);
      FinishedStage(e, r, id);
      WithinReflexive(r.psbt);
    }
  }

  lemma FinishedStage(e: Env, r: Record, id: nat)
    requires Finished(e, r, id).Ok?
    ensures Finished(e, r, id).value == r.(stage := Done, txid := Some(id), outbox := r.outbox + [DoneMessage(r, id)])
  { }

  lemma VisitIsKept(e: Env, disk: Saved, r: Record, waited: bool, c: Choices)
    requires disk.session == Some(r) && KeptByOne(e, r)
    ensures var whole := StepVisit(e, disk, r, waited, c);
      && whole.disk.session.Some? && KeptByOne(e, whole.disk.session.value) && Follows(r, whole.disk.session.value)
      && whole.broadcasts == []
  {
    hide Kept, FirstTaken, NextPass;
    FollowsItself(r);
    var o :| Kept(e, o, r);
    if FirstTaken(e, r, c.answers).Some? { FirstTakenIsKept(e, o, r, c.answers); }
  }

  lemma SteppedIsHealthy(e: Env, me: nat, terms: Option<Terms>, w: World, c: Choices, w2: World)
    requires Healthy(e, w) && Stepped(w, Step(e, me, terms, w.disk, w.waited, c), w2)
    ensures Healthy(e, w2)
  {
    hide Step, KeptByOne, Recorded, Within;
    WholeIsKept(e, me, terms, w.disk, w.waited, c);
    var whole := Step(e, me, terms, w.disk, w.waited, c);
    forall id | id in w2.broadcasts ensures id in w.broadcasts || id in whole.broadcasts {
      assert id in w.broadcasts + whole.broadcasts;
    }
    if w.disk.session.Some? {
      var r := w.disk.session.value;
      forall id | id in w2.broadcasts && w2.disk == whole.disk
        ensures whole.disk.session.value.stage != Proposing && Recorded(e, whole.disk.session.value.psbt, Some(id))
      {
        LaterRecords(e, r.psbt, whole.disk.session.value.psbt, id);
      }
    }
  }

  /** So all broadcasts of one shared send are one transaction. */
  lemma OneBroadcast(e: Env, w: World, id: nat, again: nat)
    requires Healthy(e, w) && id in w.broadcasts && again in w.broadcasts
    ensures id == again
  { }

  /** A message that is owed stays owed until it was sent. */
  lemma StepOwes(e: Env, me: nat, terms: Option<Terms>, w: World, c: Choices, w2: World, m: Message)
    requires Healthy(e, w) && Stepped(w, Step(e, me, terms, w.disk, w.waited, c), w2)
    requires m in Outbox(w.disk) || m in w.sent
    ensures m in Outbox(w2.disk) || m in w2.sent
  { }

  /** What one step did to the inbox: nothing, put at its end what the channel
    * handed over, or took the entry at this place out together with its effect. */
  datatype Did = LeftIt | Filled(batch: seq<Option<Message>>) | Took(at: nat, half: Option<Half>)

  ghost predicate Accounts(e: Env, me: nat, terms: Option<Terms>, disk: Saved, next: Saved, did: Did)
  {
    match did
    case LeftIt => next.inbox == disk.inbox
    case Filled(batch) => next.inbox == disk.inbox + batch && next.session == disk.session
    case Took(at, half) =>
      && at < |disk.inbox| && next.inbox == Without(disk.inbox, at)
      && Handled(e, me, terms, disk.session, disk.inbox[at], half) == Ok(next.session)
  }

  lemma SteppedAccounts(e: Env, me: nat, terms: Option<Terms>, w: World, c: Choices, w2: World) returns (did: Did)
    requires Stepped(w, Step(e, me, terms, w.disk, w.waited, c), w2)
    ensures Accounts(e, me, terms, w.disk, w2.disk, did)
    ensures did.Filled? ==> did.batch == c.batch
  {
    hide Handled, FinalizedSession, Finished, FirstTaken, NextPass, MyTurn, NextInInbox, Ready;
    if w2.disk.inbox == w.disk.inbox { return LeftIt; }
    if Outbox(w.disk) == [] && w.disk.inbox != [] { return Took(NextInInbox(w.disk), c.half); }
    return Filled(c.batch);
  }

  // -------------------------------------------------------------------------
  // Any number of steps and kills

  /** One step of some process: whether it is a new process, and what the world
    * outside does. */
  datatype Life = Life(anew: bool, choices: Choices)

  /** What a process knows at this step; a new one has not waited. */
  function Before(w: World, life: Life): World { w.(waited := w.waited && !life.anew) }

  ghost predicate SteppedBy(e: Env, me: nat, terms: Option<Terms>, w: World, life: Life, w2: World)
  { Stepped(Before(w, life), Step(e, me, terms, w.disk, Before(w, life).waited, life.choices), w2) }

  /** Steps one after another, each of which may have been killed anywhere. */
  ghost predicate CrashRun(e: Env, me: nat, terms: Option<Terms>, worlds: seq<World>, lives: seq<Life>)
  {
    && |worlds| == |lives| + 1
    && forall i :: 0 <= i < |lives| ==> SteppedBy(e, me, terms, worlds[i], lives[i], worlds[i + 1])
  }

  /** Whole steps one after another. */
  ghost function CleanRun(e: Env, me: nat, terms: Option<Terms>, w: World, lives: seq<Life>): World
  {
    if lives == [] then w else
    var last := lives[|lives| - 1];
    var before := Before(CleanRun(e, me, terms, w, lives[..|lives| - 1]), last);
    WholeStep(before, Step(e, me, terms, before.disk, before.waited, last.choices))
  }

  /** The same file, nothing sent or broadcast that the killed run did not, and
    * whatever the killed run sent beyond that it still owes and will send again. */
  ghost predicate Covers(clean: World, w: World)
  {
    && clean.disk == w.disk && (w.waited ==> clean.waited)
    && (forall m :: m in clean.sent ==> m in w.sent)
    && (forall id :: id in clean.broadcasts ==> id in w.broadcasts)
    && (forall m :: m in w.sent ==> m in clean.sent || m in Outbox(w.disk))
  }

  lemma OnlyTheOutboxIsSent(e: Env, me: nat, terms: Option<Terms>, disk: Saved, waited: bool, c: Choices)
    ensures var whole := Step(e, me, terms, disk, waited, c);
      && (forall m :: m in whole.sent ==> m in Outbox(disk))
      && (whole.disk != disk ==> forall m :: m in Outbox(disk) ==> m in whole.sent)
  { hide Handled, FinalizedSession, Finished, FirstTaken, NextPass, MyTurn, NextInInbox, Ready; }

  /** One step of a killed run is a whole step, or none at all. */
  lemma CrashIsWholeOrNothing(e: Env, me: nat, terms: Option<Terms>, clean: World, w: World, life: Life, w2: World)
    returns (again: Life)
    requires Covers(clean, w) && SteppedBy(e, me, terms, w, life, w2)
    ensures again.choices == life.choices
    ensures var before := Before(clean, again);
      Covers(clean, w2) || Covers(WholeStep(before, Step(e, me, terms, clean.disk, before.waited, life.choices)), w2)
  {
    hide Step;
    again := Life(!Before(w, life).waited, life.choices);
    var before := Before(w, life);
    var whole := Step(e, me, terms, w.disk, before.waited, life.choices);
    OnlyTheOutboxIsSent(e, me, terms, w.disk, before.waited, life.choices);
    assert Before(clean, again).waited == before.waited;
    forall m | m in w2.sent ensures m in w.sent || m in whole.sent { assert m in w.sent + whole.sent; }
    if w2.disk == w.disk && !w2.waited {
      assert Covers(clean, w2);
    } else {
      assert w2.sent == w.sent + whole.sent && w2.broadcasts == w.broadcasts + whole.broadcasts;
    }
  }

  /** Killing the process anywhere leads only to files that whole steps lead to, and
    * to no message and no broadcast that they do not make. */
  lemma {:induction false} CrashesReachNothingNew(e: Env, me: nat, terms: Option<Terms>, worlds: seq<World>,
                                                  lives: seq<Life>)
    returns (clean: seq<Life>)
    requires CrashRun(e, me, terms, worlds, lives)
    ensures |clean| <= |lives|
    ensures Covers(CleanRun(e, me, terms, worlds[0], clean), worlds[|lives|])
  {
    hide Step, Covers, SteppedBy, WholeStep;
    if lives == [] {
      clean := [];
      assert Covers(worlds[0], worlds[0]) by { CoversItself(worlds[0]); }
    } else {
      var n := |lives| - 1;
      assert CrashRun(e, me, terms, worlds[..n + 1], lives[..n]);
      clean := CrashesReachNothingNew(e, me, terms, worlds[..n + 1], lives[..n]);
      var reached := CleanRun(e, me, terms, worlds[0], clean);
      var again := CrashIsWholeOrNothing(e, me, terms, reached, worlds[n], lives[n], worlds[n + 1]);
      if !Covers(reached, worlds[n + 1]) {
        assert (clean + [again])[..|clean|] == clean;
        clean := clean + [again];
      }
    }
  }

  lemma CoversItself(w: World)
    ensures Covers(w, w)
  { }

  // -------------------------------------------------------------------------
  // No message is lost from the inbox

  ghost predicate RunAccounts(e: Env, me: nat, terms: Option<Terms>, worlds: seq<World>, dids: seq<Did>)
  {
    && |worlds| == |dids| + 1
    && forall i :: 0 <= i < |dids| ==> Accounts(e, me, terms, worlds[i].disk, worlds[i + 1].disk, dids[i])
  }

  function ArrivedBy(did: Did): multiset<Option<Message>>
  { match did case Filled(batch) => multiset(batch) case _ => multiset{} }

  function TakenBy(inbox: seq<Option<Message>>, did: Did): multiset<Option<Message>>
  { match did case Took(at, _) => if at < |inbox| then multiset{inbox[at]} else multiset{} case _ => multiset{} }

  /** Everything the channel put in the inbox over a run. */
  ghost function Arrived(dids: seq<Did>): multiset<Option<Message>>
  { if dids == [] then multiset{} else Arrived(dids[..|dids| - 1]) + ArrivedBy(dids[|dids| - 1]) }

  /** Everything that was taken out of it, each together with its effect. */
  ghost function TakenOut(worlds: seq<World>, dids: seq<Did>): multiset<Option<Message>>
    requires |worlds| == |dids| + 1
  {
    if dids == [] then multiset{} else
    var n := |dids| - 1;
    TakenOut(worlds[..n + 1], dids[..n]) + TakenBy(worlds[n].disk.inbox, dids[n])
  }

  lemma NothingYet(worlds: seq<World>)
    requires |worlds| == 1
    ensures Arrived([]) == multiset{} && TakenOut(worlds, []) == multiset{}
  { }

  lemma OneMoreDid(worlds: seq<World>, most: seq<Did>, did: Did)
    requires |worlds| == |most| + 2
    ensures Arrived(most + [did]) == Arrived(most) + ArrivedBy(did)
    ensures TakenOut(worlds, most + [did])
         == TakenOut(worlds[..|most| + 1], most) + TakenBy(worlds[|most|].disk.inbox, did)
  {
    hide ArrivedBy, TakenBy;
    assert (most + [did])[..|most|] == most;
  }

  lemma StepBalances(e: Env, me: nat, terms: Option<Terms>, disk: Saved, next: Saved, did: Did)
    requires Accounts(e, me, terms, disk, next, did)
    ensures multiset(disk.inbox) + ArrivedBy(did) == multiset(next.inbox) + TakenBy(disk.inbox, did)
  {
    hide Handled;
    if did.Took? {
      var inbox, i := disk.inbox, did.at;
      assert inbox == inbox[..i] + [inbox[i]] + inbox[i + 1..];
    }
  }

  lemma Balances<T>(start: multiset<T>, arrived: multiset<T>, inbox: multiset<T>, taken: multiset<T>,
                    more: multiset<T>, next: multiset<T>, out: multiset<T>)
    requires start + arrived == inbox + taken && inbox + more == next + out
    ensures start + (arrived + more) == next + (taken + out)
  {
    assert start + (arrived + more) == start + arrived + more;
    assert next + (taken + out) == next + out + taken;
    assert inbox + taken + more == inbox + more + taken;
  }

  /** Through any number of kills, the inbox at the end holds exactly what was in it
    * at the start and what arrived, without what was handled. */
  lemma {:induction false} NothingLeavesUnhandled(e: Env, me: nat, terms: Option<Terms>, worlds: seq<World>,
                                                  lives: seq<Life>)
    returns (dids: seq<Did>)
    requires CrashRun(e, me, terms, worlds, lives)
    ensures |dids| == |lives| && RunAccounts(e, me, terms, worlds, dids)
    ensures forall i :: 0 <= i < |lives| && dids[i].Filled? ==> dids[i].batch == lives[i].choices.batch
    ensures multiset(worlds[0].disk.inbox) + Arrived(dids)
         == multiset(worlds[|lives|].disk.inbox) + TakenOut(worlds, dids)
  {
    hide Step, Stepped, Accounts, ArrivedBy, TakenBy, Arrived, TakenOut;
    if lives == [] {
      NothingYet(worlds);
      dids := [];
    } else {
      var n := |lives| - 1;
      assert CrashRun(e, me, terms, worlds[..n + 1], lives[..n]);
      var most := NothingLeavesUnhandled(e, me, terms, worlds[..n + 1], lives[..n]);
      var inbox, next := worlds[n].disk, worlds[n + 1].disk;
      var did := SteppedAccounts(e, me, terms, Before(worlds[n], lives[n]), lives[n].choices, worlds[n + 1]);
      dids := most + [did];
      assert dids[..n] == most;
      forall i | 0 <= i < |dids| ensures Accounts(e, me, terms, worlds[i].disk, worlds[i + 1].disk, dids[i]) {
        if i < n { assert Accounts(e, me, terms, worlds[..n + 1][i].disk, worlds[..n + 1][i + 1].disk, most[i]); }
      }
      StepBalances(e, me, terms, inbox, next, did);
      OneMoreDid(worlds, most, did);
      Balances(multiset(worlds[0].disk.inbox), Arrived(most), multiset(inbox.inbox), TakenOut(worlds[..n + 1], most),
               ArrivedBy(did), multiset(next.inbox), TakenBy(inbox.inbox, did));
    }
  }

  /** Through any number of kills: the session stays one the wallet can rely on,
    * nothing owed is forgotten, and only one transaction is ever broadcast. */
  lemma {:induction false} CrashRunIsSafe(e: Env, me: nat, terms: Option<Terms>, worlds: seq<World>, lives: seq<Life>)
    requires CrashRun(e, me, terms, worlds, lives) && Healthy(e, worlds[0])
    ensures Healthy(e, worlds[|lives|])
    ensures forall m :: m in Outbox(worlds[0].disk) ==> m in Outbox(worlds[|lives|].disk) || m in worlds[|lives|].sent
  {
    hide Step, Stepped, Healthy;
    if lives != [] {
      var n := |lives| - 1;
      assert CrashRun(e, me, terms, worlds[..n + 1], lives[..n]);
      CrashRunIsSafe(e, me, terms, worlds[..n + 1], lives[..n]);
      var before := Before(worlds[n], lives[n]);
      WaitingIsNoMatter(e, worlds[n], before);
      SteppedIsHealthy(e, me, terms, before, lives[n].choices, worlds[n + 1]);
      forall m | m in Outbox(worlds[0].disk) ensures m in Outbox(worlds[n + 1].disk) || m in worlds[n + 1].sent {
        StepOwes(e, me, terms, before, lives[n].choices, worlds[n + 1], m);
      }
    }
  }

  lemma WaitingIsNoMatter(e: Env, w: World, w2: World)
    requires Healthy(e, w) && w2 == w.(waited := w2.waited)
    ensures Healthy(e, w2)
  { }

  /** A step of the driver, in a new process, is one step of such a run. */
  method RunOnce(e: Env, me: nat, terms: Option<Terms>, w: World, c: Choices, budget: nat)
    returns (p: Progress, w2: World)
    requires Healthy(e, w)
    ensures Healthy(e, w2) && CrashRun(e, me, terms, [w, w2], [Life(true, c)])
  {
    hide Step, Stepped, Healthy;
    var flow := new Flow(me, terms, w, budget);
    p := flow.Next(e, c);
    w2 := flow.Seen();
    var before := Before(w, Life(true, c));
    WaitingIsNoMatter(e, w, before);
    SteppedIsHealthy(e, me, terms, before, c, w2);
    assert SteppedBy(e, me, terms, w, Life(true, c), w2);
  }
}
