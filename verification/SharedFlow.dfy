/** One wallet's side of a shared send, driven a step at a time over a session
  * file, and what killing it in the middle of a step can and cannot do. */
module SharedFlow {
  import opened Wrappers
  import opened Chain
  import opened PsbtV2
  import opened Fees
  import opened Building
  import opened SharedSession

  /** What the session file holds. An entry of the inbox that is not a well formed
    * message is `None`. */
  datatype Saved = Saved(inbox: seq<Option<Message>>, session: Option<Record>)

  /** What wallet B insists a proposal says before it joins. */
  datatype Terms = Terms(to: Option<Address>, sats: Option<nat>)

  /** How one step ended. `Killed` is the process dying inside it. */
  datatype Progress = Waiting | Moved | DoneWith(txid: Option<nat>) | Failed | Killed

  /** What the world outside does during one step: how many sends go through before
    * the channel fails, what the wallet builds, whether the network takes the
    * transaction, what the signer answers, and what the channel hands over. */
  datatype Choices = Choices(
    sends: nat,
    half: Option<Half>,
    accepted: bool,
    answers: seq<Psbt>,
    batch: seq<Option<Message>>
  )

  datatype Whole = Whole(disk: Saved, waited: bool, sent: seq<Message>, broadcasts: seq<nat>, progress: Progress)

  // -------------------------------------------------------------------------
  // What one whole step means

  function Outbox(s: Saved): seq<Message>
  { if s.session.Some? then s.session.value.outbox else [] }

  predicate RefusedByTerms(t: Option<Terms>, p: Proposal)
  {
    t.Some? && ((t.value.to.Some? && t.value.to.value != p.to) || (t.value.sats.Some? && t.value.sats.value != p.sats))
  }

  /** A message while there is no shared send: `Err` is trouble on this side only. */
  function Considered(e: Env, me: nat, terms: Option<Terms>, m: Message, half: Option<Half>): Result<Option<Record>, ()>
  {
    if m.kind != ProposalKind then Ok(None)
    else
      var proposal := ReadProposal(e, m, me);
      if proposal.Err? || RefusedByTerms(terms, proposal.value) then Ok(None)
      else if half.None? then Err(())
      else
        var joined := JoinedSession(e, me, proposal.value, half.value);
        Ok(if joined.Ok? then Some(joined.value) else None)
  }

  /** The session after one inbox entry. */
  function Handled(e: Env, me: nat, terms: Option<Terms>, session: Option<Record>, text: Option<Message>,
                   half: Option<Half>)
    : Result<Option<Record>, ()>
  {
    if text.None? then Ok(session)
    else if session.None? then Considered(e, me, terms, text.value, half)
    else Ok(Some(match Received(e, session.value, text.value) case Ok((next, _)) => next case Err(_) => session.value))
  }

  predicate IsProposal(text: Option<Message>) { text.Some? && text.value.kind == ProposalKind }

  /** The newest proposal in the inbox. */
  function LastProposal(inbox: seq<Option<Message>>): (r: Option<nat>)
    ensures r.Some? ==> r.value < |inbox| && IsProposal(inbox[r.value]) && forall i :: r.value < i < |inbox| ==>
      !IsProposal(inbox[i])
    ensures r.None? ==> forall i :: 0 <= i < |inbox| ==> !IsProposal(inbox[i])
  {
    if inbox == [] then None
    else if IsProposal(inbox[|inbox| - 1]) then Some(|inbox| - 1)
    else LastProposal(inbox[..|inbox| - 1])
  }

  function NextInInbox(s: Saved): (i: nat)
    requires s.inbox != []
    ensures i < |s.inbox|
  {
    if s.session.Some? then 0
    else match LastProposal(s.inbox) case Some(i) => i case None => 0
  }

  /** The first answer that is taken; a signer that gives up leaves nothing. */
  function FirstTaken(e: Env, r: Record, answers: seq<Psbt>): Option<Record>
  {
    if answers == [] then None
    else if Responded(e, r, answers[0]).Ok? then Some(Responded(e, r, answers[0]).value)
    else FirstTaken(e, r, answers[1..])
  }

  function Listened(disk: Saved, waited: bool, batch: seq<Option<Message>>): Whole
  {
    if batch == [] then Whole(disk, waited, [], [], Waiting)
    else Whole(disk.(inbox := disk.inbox + batch), waited, [], [], Moved)
  }

  function Stay(disk: Saved, waited: bool, progress: Progress): Whole { Whole(disk, waited, [], [], progress) }

  /** One step that is not killed. */
  function Step(e: Env, me: nat, terms: Option<Terms>, disk: Saved, waited: bool, c: Choices): Whole
  {
    if Outbox(disk) != [] then
      if c.sends < |Outbox(disk)| then Whole(disk, waited, Outbox(disk)[..c.sends], [], Failed)
      else Whole(disk.(session := Some(disk.session.value.(outbox := []))), waited, Outbox(disk), [], Moved)
    else if disk.inbox != [] then
      var next := NextInInbox(disk);
      var handled := Handled(e, me, terms, disk.session, disk.inbox[next], c.half);
      if handled.Err? then Stay(disk, waited, Failed)
      else Whole(Saved(Without(disk.inbox, next), handled.value), waited, [], [], Moved)
    else if disk.session.None? then Listened(disk, waited, c.batch)
    else
      var r := disk.session.value;
      if r.stage == Done then Stay(disk, waited, DoneWith(r.txid))
      else if Ready(r) then StepReady(e, disk, r, waited, c)
      else if MyTurn(r).Err? then Stay(disk, waited, Failed)
      else if MyTurn(r).value then StepVisit(e, disk, r, waited, c)
      else Listened(disk, waited, c.batch)
  }

  function StepReady(e: Env, disk: Saved, r: Record, waited: bool, c: Choices): Whole
  {
    if r.newest == Theirs && !waited then Listened(disk, true, c.batch)
    else
      var signed := FinalizedSession(e, r);
      if signed.Err? then Stay(disk, waited, Failed)
      else if !c.accepted then Stay(disk, waited, Failed)
      else
        var id := e.txid(signed.value.tx);
        var finished := Finished(e, r, id);
        if finished.Err? then Whole(disk, waited, [], [id], Failed)
        else Whole(disk.(session := Some(finished.value)), waited, [], [id], Moved)
  }

  function StepVisit(e: Env, disk: Saved, r: Record, waited: bool, c: Choices): Whole
  {
    if NextPass(e, r).Err? then Stay(disk, waited, Failed)
    else
      var taken := FirstTaken(e, r, c.answers);
      if taken.None? then Stay(disk, waited, Failed)
      else Whole(disk.(session := taken), waited, [], [], Moved)
  }

  // -------------------------------------------------------------------------
  // The code

  /** What outlives the process, and the one thing that does not. */
  datatype World = World(disk: Saved, waited: bool, sent: seq<Message>, broadcasts: seq<nat>)

  /** After a step that nothing killed. */
  ghost function WholeStep(before: World, whole: Whole): World
  { World(whole.disk, whole.waited, before.sent + whole.sent, before.broadcasts + whole.broadcasts) }

  /** After a step that may have been killed: the file is the old one or the whole
    * step's; of the sends and the broadcast some first part happened, and all of it
    * if the file is the new one; that it waited only a whole step remembers. */
  ghost predicate Stepped(before: World, whole: Whole, after: World)
  {
    && (after.disk == before.disk || after.disk == whole.disk)
    && before.sent <= after.sent && after.sent <= before.sent + whole.sent
    && before.broadcasts <= after.broadcasts && after.broadcasts <= before.broadcasts + whole.broadcasts
    && (after.disk != before.disk ==> after == WholeStep(before, whole).(waited := after.waited))
    && (after.waited ==> after == WholeStep(before, whole))
  }

  class Flow {
    const me: nat
    const terms: Option<Terms>
    var disk: Saved
    var waited: bool
    var sent: seq<Message>
    var broadcasts: seq<nat>
    /** How many more things visible from outside the process will do before it is killed. */
    var budget: nat

    function Seen(): World
      reads this
    { World(disk, waited, sent, broadcasts) }

    constructor (me: nat, terms: Option<Terms>, w: World, budget: nat)
      ensures this.me == me && this.terms == terms && Seen() == World(w.disk, false, w.sent, w.broadcasts)
      ensures this.budget == budget
    {
      this.me, this.terms, this.budget := me, terms, budget;
      disk, waited, sent, broadcasts := w.disk, false, w.sent, w.broadcasts;
    }

    /** Replace the file in one go. */
    method Save(saved: Saved) returns (alive: bool)
      modifies this`disk, this`budget
      ensures alive <==> old(budget) > 0
      ensures disk == if alive then saved else old(disk)
    {
      alive := budget > 0;
      if alive {
        disk := saved;
        budget := budget - 1;
      }
    }

    /** Do the one next thing. A killed process forgets what is only in its memory. */
    method Next(e: Env, c: Choices) returns (p: Progress)
      modifies this
      ensures var whole := Step(e, me, terms, old(disk), old(waited), c);
        && Stepped(old(Seen()), whole, Seen())
        && (p != Killed ==> p == whole.progress && Seen() == WholeStep(old(Seen()), whole))
    {
      hide Step;
      p := Act(e, c);
      if p == Killed { waited := false; }
    }

    method Act(e: Env, c: Choices) returns (p: Progress)
      modifies this
      ensures var whole := Step(e, me, terms, old(disk), old(waited), c);
        && Stepped(old(Seen()), whole, Seen().(waited := false))
        && (p != Killed ==> p == whole.progress && Seen() == WholeStep(old(Seen()), whole))
    {
      hide Handled, Ready, MyTurn, FinalizedSession, NextPass, FirstTaken, Finished, NextInInbox;
      var saved := disk;
      if Outbox(saved) != [] {
        p := SendAll(e, c);
        return;
      }
      if saved.inbox != [] {
        p := TakeOne(e, c);
        return;
      }
      if saved.session.Some? {
        var r := saved.session.value;
        if r.stage == Done { return DoneWith(r.txid); }
        if Ready(r) {
          if r.newest == Theirs && !waited {
            waited := true;
            p := Listen(saved, c.batch);
            return;
          }
          p := BroadcastIt(e, r, c);
          return;
        }
        if MyTurn(r).Err? { return Failed; }
        if MyTurn(r).value {
          p := VisitSigner(e, r, c);
          return;
        }
      }
      p := Listen(saved, c.batch);
    }

    /** What is owed goes out before anything else; it is forgotten only after all of it went. */
    method SendAll(e: Env, c: Choices) returns (p: Progress)
      requires Outbox(disk) != []
      modifies this
      ensures var whole := Step(e, me, terms, old(disk), old(waited), c);
        && Stepped(old(Seen()), whole, Seen().(waited := false))
        && (p != Killed ==> p == whole.progress && Seen() == WholeStep(old(Seen()), whole))
    {
      hide Handled, NextInInbox, Ready, MyTurn, StepReady, StepVisit, Listened;
      var saved, outbox := disk, Outbox(disk);
      for i := 0 to |outbox|
        invariant i <= c.sends && disk == old(disk) && waited == old(waited) && broadcasts == old(broadcasts)
        invariant sent == old(sent) + outbox[..i]
      {
        if budget == 0 { return Killed; }
        if i == c.sends { return Failed; }
        budget := budget - 1;
        sent := sent + [outbox[i]];
      }
      assert outbox[..|outbox|] == outbox;
      var alive := Save(saved.(session := Some(saved.session.value.(outbox := []))));
      return if alive then Moved else Killed;
    }

    /** A message leaves the inbox in the same save as what it did. */
    method TakeOne(e: Env, c: Choices) returns (p: Progress)
      requires Outbox(disk) == [] && disk.inbox != []
      modifies this
      ensures var whole := Step(e, me, terms, old(disk), old(waited), c);
        && Stepped(old(Seen()), whole, Seen().(waited := false))
        && (p != Killed ==> p == whole.progress && Seen() == WholeStep(old(Seen()), whole))
    {
      hide Handled, NextInInbox;
      var next := NextInInbox(disk);
      var handled := HandleOne(e, disk.session, disk.inbox[next], c.half);
      if handled.Err? { return Failed; }
      var alive := Save(Saved(Without(disk.inbox, next), handled.value));
      return if alive then Moved else Killed;
    }

    /** Act on one message: give it to the session, or join it when there is none. */
    method HandleOne(e: Env, session: Option<Record>, text: Option<Message>, half: Option<Half>)
      returns (r: Result<Option<Record>, ()>)
      ensures r == Handled(e, me, terms, session, text, half)
    {
      hide Received, ReadProposal, JoinedSession;
      if text.None? { return Ok(session); }
      if session.None? {
        r := Consider(e, text.value, half);
        return;
      }
      var current := new Session.Of(session.value);
      var outcome := current.Receive(e, text.value);
      return Ok(Some(current.Snapshot()));
    }

    method Consider(e: Env, m: Message, half: Option<Half>) returns (r: Result<Option<Record>, ()>)
      ensures r == Considered(e, me, terms, m, half)
    {
      hide ReadProposal, JoinedSession;
      if m.kind != ProposalKind { return Ok(None); }
      var proposal := ReadProposalMessage(e, m, me);
      if proposal.Err? || RefusedByTerms(terms, proposal.value) { return Ok(None); }
      if half.None? { return Err(()); }
      var joined := Session.JoinWith(e, me, proposal.value, half.value);
      if joined.Err? { return Ok(None); }
      return Ok(Some(joined.value.Snapshot()));
    }

    method BroadcastIt(e: Env, r: Record, c: Choices) returns (p: Progress)
      modifies this
      ensures var whole := StepReady(e, old(disk), r, true, c).(waited := old(waited));
        && Stepped(old(Seen()), whole, Seen().(waited := false))
        && (p != Killed ==> p == whole.progress && Seen() == WholeStep(old(Seen()), whole))
    {
      hide FinalizedSession, Finished;
      var current := new Session.Of(r);
      var signed := current.FinalizeIt(e);
      if signed.Err? { return Failed; }
      if budget == 0 { return Killed; }
      if !c.accepted { return Failed; }
      var id := e.txid(signed.value.tx);
      budget := budget - 1;
      broadcasts := broadcasts + [id];
      var refused := current.Finish(e, id);
      if refused.Some? { return Failed; }
      var alive := Save(disk.(session := Some(current.Snapshot())));
      return if alive then Moved else Killed;
    }

    /** Ask the signer until an answer is taken or it gives up. */
    method VisitSigner(e: Env, r: Record, c: Choices) returns (p: Progress)
      modifies this
      ensures var whole := StepVisit(e, old(disk), r, old(waited), c);
        && Stepped(old(Seen()), whole, Seen().(waited := false))
        && (p != Killed ==> p == whole.progress && Seen() == WholeStep(old(Seen()), whole))
    {
      hide NextPass, Responded;
      var current := new Session.Of(r);
      var pass := current.ThePass(e);
      if pass.Err? { return Failed; }
      var i := 0;
      while true
        invariant 0 <= i <= |c.answers|
        invariant FirstTaken(e, r, c.answers) == FirstTaken(e, r, c.answers[i..])
        invariant Seen() == old(Seen()) && current.Snapshot() == r
        decreases |c.answers| - i
      {
        if i == |c.answers| { return Failed; }
        var refused := current.Respond(e, c.answers[i]);
        assert c.answers[i..][1..] == c.answers[i + 1..];
        if refused.None? {
          var alive := Save(disk.(session := Some(current.Snapshot())));
          return if alive then Moved else Killed;
        }
        i := i + 1;
      }
    }

    /** The channel's hand-over and the save of the inbox are one action here. */
    method Listen(saved: Saved, batch: seq<Option<Message>>) returns (p: Progress)
      requires saved == disk
      modifies this`disk, this`budget
      ensures var whole := Listened(old(disk), waited, batch);
        && (disk == old(disk) || disk == whole.disk)
        && (p != Killed ==> p == whole.progress && disk == whole.disk)
    {
      if batch == [] { return Waiting; }
      var alive := Save(saved.(inbox := saved.inbox + batch));
      return if alive then Moved else Killed;
    }
  }

  // -------------------------------------------------------------------------
  // Starting a shared send

  datatype Begun = Resumed | Started | Refused | Stopped

  predicate SameSend(r: Record, to: Address, sats: nat)
  { r.role == Start && r.sats == sats && r.to == to }

  /** The wallet folder: the session file, and the broadcast sessions kept beside
    * it under their own names. */
  class Folder {
    var disk: Saved
    var kept: map<nat, Record>
    var budget: nat

    constructor (disk: Saved, kept: map<nat, Record>, budget: nat)
      ensures this.disk == disk && this.kept == kept && this.budget == budget
    { this.disk, this.kept, this.budget := disk, kept, budget; }

    /** Put a broadcast session beside the file, then take it out of the file. */
    method Retire() returns (alive: bool)
      modifies this
      ensures disk == old(disk) || (old(disk).session.Some? && old(disk).session.value.stage == Done
        && disk == old(disk).(session := None) && old(disk).session.value.session in kept
        && kept[old(disk).session.value.session] == old(disk).session.value)
      ensures forall id :: id in old(kept) ==> id in kept
      ensures alive ==> disk.session.None? || disk.session.value.stage != Done
    {
      if disk.session.None? || disk.session.value.stage != Done { return true; }
      if budget == 0 { return false; }
      budget := budget - 1;
      kept := kept[disk.session.value.session := disk.session.value];
      if budget == 0 { return false; }
      budget := budget - 1;
      disk := disk.(session := None);
      return true;
    }

    /** An unfinished send with the same recipient and amount is carried on, another
      * one stands in the way, and a broadcast one is put away but never lost. */
    method Begin(e: Env, me: nat, id: nat, to: Address, sats: nat, feeRate: nat, half: Option<Half>) returns (p: Begun)
      modifies this
      ensures old(disk).session.Some? && old(disk).session.value.stage != Done ==>
        disk == old(disk) && p == if SameSend(old(disk).session.value, to, sats) then Resumed else Refused
      ensures p == Started ==>
        half.Some? && AmountSplits(sats) && ProposedSession(e, me, id, half.value, to, sats, feeRate).Ok?
          && disk == old(disk).(session := Some(ProposedSession(e, me, id, half.value, to, sats, feeRate).value))
      ensures p != Started ==> disk == old(disk) || disk == old(disk).(session := None)
      ensures old(disk).session.Some? && disk.session != old(disk).session ==>
        old(disk).session.value.session in kept && kept[old(disk).session.value.session] == old(disk).session.value
    {
      if disk.session.Some? && disk.session.value.stage != Done {
        return if SameSend(disk.session.value, to, sats) then Resumed else Refused;
      }
      var alive := Retire();
      if !alive { return Stopped; }
      if !AmountSplits(sats) || half.None? { return Refused; }
      var proposed := Session.Propose(e, me, id, half.value, to, sats, feeRate);
      if proposed.Err? { return Refused; }
      if budget == 0 { return Stopped; }
      budget := budget - 1;
      disk := disk.(session := Some(proposed.value.Snapshot()));
      return Started;
    }
  }
}
