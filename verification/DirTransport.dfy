/** The channel that is a folder: one file per message, numbered by its sender, and
  * a cursor per reader. */
module DirTransport {
  import opened Wrappers

  /** A message file's name, taken apart, and what the file says. */
  datatype Entry = Entry(time: nat, sender: nat, number: nat, text: nat)

  datatype Name = Name(time: nat, sender: nat, number: nat)

  function NameOf(e: Entry): Name { Name(e.time, e.sender, e.number) }

  const SEND_ATTEMPTS: nat := 16

  // -------------------------------------------------------------------------
  // The listing, oldest first

  predicate NotAfter(a: Entry, b: Entry)
  {
    a.time < b.time || (a.time == b.time && (a.sender < b.sender || (a.sender == b.sender &&
      (a.number < b.number || (a.number == b.number && a.text <= b.text)))))
  }

  ghost predicate Ordered(s: seq<Entry>)
  { forall i, j :: 0 <= i < j < |s| ==> NotAfter(s[i], s[j]) }

  function Inserted(e: Entry, s: seq<Entry>): seq<Entry>
  { if s == [] || NotAfter(e, s[0]) then [e] + s else [s[0]] + Inserted(e, s[1..]) }

  function Sort(s: seq<Entry>): seq<Entry>
  { if s == [] then [] else Inserted(s[0], Sort(s[1..])) }

  lemma {:induction false} InsertedHolds(e: Entry, s: seq<Entry>)
    ensures multiset(Inserted(e, s)) == multiset{e} + multiset(s)
    ensures forall x :: x in Inserted(e, s) <==> x == e || x in s
  {
    if s != [] { assert s == [s[0]] + s[1..]; }
    if !(s == [] || NotAfter(e, s[0])) { InsertedHolds(e, s[1..]); }
    forall x
      ensures x in Inserted(e, s) <==> x == e || x in s
    { assert x in Inserted(e, s) <==> x in multiset(Inserted(e, s)); }
  }

  lemma {:induction false} InsertedIsOrdered(e: Entry, s: seq<Entry>)
    requires Ordered(s)
    ensures Ordered(Inserted(e, s))
  {
    if !(s == [] || NotAfter(e, s[0])) {
      InsertedIsOrdered(e, s[1..]);
      InsertedHolds(e, s[1..]);
      var rest := Inserted(e, s[1..]);
      forall i | 0 <= i < |rest| ensures NotAfter(s[0], rest[i]) {
        if rest[i] != e {
          assert rest[i] in rest;
          var j :| 0 <= j < |s[1..]| && s[1..][j] == rest[i];
          assert s[j + 1] == rest[i];
        }
      }
    }
  }

  /** Sorting loses nothing, adds nothing, and puts older before newer. */
  lemma {:induction false} SortOrders(s: seq<Entry>)
    ensures Ordered(Sort(s)) && multiset(Sort(s)) == multiset(s)
    ensures forall x :: x in Sort(s) <==> x in s
  {
    if s != [] {
      assert s == [s[0]] + s[1..];
      SortOrders(s[1..]);
      InsertedIsOrdered(s[0], Sort(s[1..]));
      InsertedHolds(s[0], Sort(s[1..]));
    }
  }

  // -------------------------------------------------------------------------
  // What a reader is handed

  function Expected(cursor: map<nat, nat>, sender: nat): nat
  { if sender in cursor then cursor[sender] else 1 }

  /** Walk the listing, taking every file that is its sender's next. */
  function Pending(me: nat, listing: seq<Entry>, cursor: map<nat, nat>): (seq<Entry>, map<nat, nat>)
  {
    if listing == [] then ([], cursor) else
    var last := listing[|listing| - 1];
    var (ready, next) := Pending(me, listing[..|listing| - 1], cursor);
    if last.sender == me then (ready, next)
    else if last.number == Expected(next, last.sender) then (ready + [last], next[last.sender := last.number + 1])
    else (ready, next[last.sender := Expected(next, last.sender)])
  }

  /** The first look at the folder that finds something. */
  function ReceivedFrom(me: nat, looks: seq<seq<Entry>>, cursor: map<nat, nat>): (seq<Entry>, map<nat, nat>)
  {
    if looks == [] then ([], cursor)
    else if Pending(me, Sort(looks[0]), cursor).0 != [] then Pending(me, Sort(looks[0]), cursor)
    else ReceivedFrom(me, looks[1..], cursor)
  }

  predicate Fails(ready: seq<Entry>, readable: Entry -> bool, saves: bool)
  { ready != [] && (!saves || exists i :: 0 <= i < |ready| && !readable(ready[i])) }

  function LastTime(mine: seq<Entry>): nat
  { if mine == [] then 0 else var rest := LastTime(mine[1..]); if mine[0].time > rest then mine[0].time else rest }

  function LastNumber(mine: seq<Entry>): nat
  { if mine == [] then 0 else var rest := LastNumber(mine[1..]);
    if mine[0].number > rest then mine[0].number else rest }

  function Mine(me: nat, listing: seq<Entry>): (mine: seq<Entry>)
    ensures forall e :: e in mine <==> e in listing && e.sender == me
  {
    if listing == [] then [] else
    assert forall e :: e in listing <==> e == listing[0] || e in listing[1..];
    var rest := Mine(me, listing[1..]);
    if listing[0].sender == me then [listing[0]] + rest else rest
  }

  /** Never at or below this sender's last message, whatever the clock says. */
  function SendTime(mine: seq<Entry>, now: nat): nat
  { if mine == [] || now > LastTime(mine) then now else LastTime(mine) + 1 }

  class Participant {
    const me: nat
    var cursor: map<nat, nat>

    constructor (me: nat)
      ensures this.me == me && cursor == map[]
    { this.me, cursor := me, map[]; }

    method FindPending(listing: seq<Entry>) returns (ready: seq<Entry>, next: map<nat, nat>)
      ensures (ready, next) == Pending(me, listing, cursor)
    {
      ready, next := [], cursor;
      for i := 0 to |listing|
        invariant (ready, next) == Pending(me, listing[..i], cursor)
      {
        assert listing[..i + 1][..i] == listing[..i];
        var entry := listing[i];
        if entry.sender == me { continue; }
        ghost var before := next;
        if entry.sender !in next { next := next[entry.sender := 1]; }
        if entry.number == next[entry.sender] {
          next := next[entry.sender := next[entry.sender] + 1];
          ready := ready + [entry];
          assert next == before[entry.sender := entry.number + 1];
        } else {
          assert next == before[entry.sender := Expected(before, entry.sender)];
        }
      }
      assert listing[..|listing|] == listing;
    }

    /** Look until something is there or the time is up; the cursor is saved before
      * anything is returned. A file that cannot be read, or a cursor that cannot be
      * saved, is an error that leaves everything to the next call. */
    method Receive(looks: seq<seq<Entry>>, readable: Entry -> bool, saves: bool) returns (handed: Option<seq<Entry>>)
      modifies this
      ensures var (ready, next) := ReceivedFrom(me, looks, old(cursor));
        if Fails(ready, readable, saves) then handed.None? && cursor == old(cursor)
        else handed == Some(ready) && cursor == next
    {
      for i := 0 to |looks|
        invariant cursor == old(cursor)
        invariant ReceivedFrom(me, looks, cursor) == ReceivedFrom(me, looks[i..], cursor)
      {
        var ready, next := FindPending(Sort(looks[i]));
        assert looks[i..][1..] == looks[i + 1..];
        if ready != [] {
          for k := 0 to |ready|
            invariant forall j :: 0 <= j < k ==> readable(ready[j])
          {
            if !readable(ready[k]) { return None; }
          }
          if !saves { return None; }
          cursor := next;
          return Some(ready);
        }
      }
      return Some([]);
    }

    /** Put one message in the folder. `names` are the names that are taken there. */
    method Send(listing: seq<Entry>, names: set<Name>, now: nat, text: nat) returns (r: Option<Entry>)
      ensures var mine := Mine(me, listing);
        var time, first := SendTime(mine, now), LastNumber(mine) + 1;
        match r
        case Some(e) => e.time == time && e.sender == me && e.text == text && NameOf(e) !in names
          && first <= e.number < first + SEND_ATTEMPTS
          && forall n :: first <= n < e.number ==> Name(time, me, n) in names
        case None => forall n :: first <= n < first + SEND_ATTEMPTS ==> Name(time, me, n) in names
    {
      var mine := Mine(me, listing);
      var time, number := SendTime(mine, now), LastNumber(mine) + 1;
      for attempt := 0 to SEND_ATTEMPTS
        invariant number == LastNumber(mine) + 1 + attempt
        invariant forall n :: LastNumber(mine) + 1 <= n < number ==> Name(time, me, n) in names
      {
        if Name(time, me, number) !in names { return Some(Entry(time, me, number, text)); }
        number := number + 1;
      }
      return None;
    }
  }

  // -------------------------------------------------------------------------
  // Every sender's numbers

  /** Each sender's files are numbered from 1 without a gap or a repeat, and later
    * numbers have later times. */
  ghost predicate Numbered(files: set<Entry>)
  {
    && (forall a, b :: a in files && b in files && a.sender == b.sender && a.number == b.number ==> a == b)
    && (forall a, b :: a in files && b in files && a.sender == b.sender && a.number < b.number ==> a.time < b.time)
    && (forall a, n: nat :: a in files && 1 <= n < a.number ==> HasNumber(files, a.sender, n))
    && (forall a :: a in files ==> a.number >= 1)
  }

  ghost predicate HasNumber(files: set<Entry>, sender: nat, n: nat)
  { exists e :: e in files && e.sender == sender && e.number == n }

  lemma {:induction false} LastIsLargest(mine: seq<Entry>)
    ensures forall e :: e in mine ==> e.number <= LastNumber(mine) && e.time <= LastTime(mine)
    ensures mine != [] ==>
      (exists e :: e in mine && e.number == LastNumber(mine)) && (exists e :: e in mine && e.time == LastTime(mine))
    ensures mine == [] ==> LastNumber(mine) == 0
  {
    if mine != [] {
      LastIsLargest(mine[1..]);
      assert mine[0] in mine && forall e :: e in mine <==> e == mine[0] || e in mine[1..];
      if mine[1..] == [] { assert LastNumber(mine) == mine[0].number && LastTime(mine) == mine[0].time; }
    }
  }

  ghost function Names(files: set<Entry>): set<Name>
  { set e | e in files :: NameOf(e) }

  /** A sender that sees its own files always gets its next number on the first
    * attempt, and the folder stays numbered. */
  lemma SendKeepsNumbers(files: set<Entry>, listing: seq<Entry>, me: nat, now: nat, text: nat)
    requires Numbered(files)
    requires forall e :: e in files && e.sender == me <==> e in listing && e.sender == me
    ensures var mine := Mine(me, listing);
      var e := Entry(SendTime(mine, now), me, LastNumber(mine) + 1, text);
      NameOf(e) !in Names(files) && Numbered(files + {e})
  {
    var mine := Mine(me, listing);
    LastIsLargest(mine);
    var e := Entry(SendTime(mine, now), me, LastNumber(mine) + 1, text);
    assert forall x :: x in mine <==> x in files && x.sender == me;
    forall x | x in files && x.sender == me ensures x.number < e.number && x.time < e.time { assert x in mine; }
    forall n: nat | 1 <= n < e.number ensures HasNumber(files, me, n) {
      var x :| x in mine && x.number == LastNumber(mine);
      if n == LastNumber(mine) { assert x in files; }
    }
    NextKeepsNumbers(files, e);
  }

  /** A file above all of its sender's others, next in number. */
  lemma NextKeepsNumbers(files: set<Entry>, e: Entry)
    requires Numbered(files) && e.number >= 1
    requires forall x :: x in files && x.sender == e.sender ==> x.number < e.number && x.time < e.time
    requires forall n: nat :: 1 <= n < e.number ==> HasNumber(files, e.sender, n)
    ensures NameOf(e) !in Names(files) && Numbered(files + {e})
  {
    var after := files + {e};
    forall a, n: nat | a in after && 1 <= n < a.number ensures HasNumber(after, a.sender, n) {
      assert HasNumber(files, a.sender, n);
      StillHasNumber(files, after, a.sender, n);
    }
  }

  lemma StillHasNumber(files: set<Entry>, more: set<Entry>, sender: nat, n: nat)
    requires HasNumber(files, sender, n) && files <= more
    ensures HasNumber(more, sender, n)
  { }

  // -------------------------------------------------------------------------
  // In order, without a gap or a repeat

  function From(sender: nat, handed: seq<Entry>): seq<Entry>
  {
    if handed == [] then [] else
    var most := From(sender, handed[..|handed| - 1]);
    if handed[|handed| - 1].sender == sender then most + [handed[|handed| - 1]] else most
  }

  /** These are exactly the messages `low`, `low + 1`, and so on below `high`. */
  ghost predicate Consecutive(s: seq<Entry>, low: nat, high: nat)
  { |s| == high - low && low <= high && forall i :: 0 <= i < |s| ==> s[i].number == low + i }

  /** What one look hands over from a sender starts where the cursor stood, has no
    * gap, and moves the cursor past exactly that, whatever the listing is. */
  lemma {:induction false} PendingIsConsecutive(me: nat, listing: seq<Entry>, cursor: map<nat, nat>, sender: nat)
    requires sender != me
    ensures var (ready, next) := Pending(me, listing, cursor);
      && Consecutive(From(sender, ready), Expected(cursor, sender), Expected(next, sender))
      && forall e :: e in ready ==> e in listing && e.sender != me
  {
    hide From;
    assert From(sender, []) == [] by { FromOneMore(sender, [], Entry(0, sender, 0, 0)); }
    if listing != [] {
      PendingIsConsecutive(me, listing[..|listing| - 1], cursor, sender);
      var last := listing[|listing| - 1];
      FromOneMore(sender, Pending(me, listing[..|listing| - 1], cursor).0, last);
      assert last in listing;
    }
  }

  lemma FromOneMore(sender: nat, handed: seq<Entry>, last: Entry)
    ensures From(sender, handed + [last]) == From(sender, handed) + if last.sender == sender then [last] else []
    ensures From(sender, []) == []
  { assert (handed + [last])[..|handed|] == handed; }

  /** Everything a sender has sent from `low` up to `n` is visible. */
  ghost predicate AllVisible(listing: seq<Entry>, sender: nat, low: nat, n: nat)
  { forall k: nat :: low <= k <= n ==> Visible(listing, sender, k) }

  ghost predicate Visible(listing: seq<Entry>, sender: nat, k: nat)
  { exists e :: e in listing && e.sender == sender && e.number == k }

  /** A file whose predecessors are all visible is reached by one look. */
  lemma {:induction false} PendingReaches(me: nat, listing: seq<Entry>, all: seq<Entry>, cursor: map<nat, nat>,
                                          sender: nat, n: nat)
    requires sender != me && listing <= all && Ordered(all)
    requires forall a, b :: a in all && b in all && a.sender == b.sender && a.number < b.number ==> a.time < b.time
    requires Expected(cursor, sender) <= n && AllVisible(all, sender, Expected(cursor, sender), n)
    requires Visible(listing, sender, n)
    ensures Expected(Pending(me, listing, cursor).1, sender) > n
  {
    hide Ordered, AllVisible, NotAfter, Pending, Consecutive, From;
    PendingOneMore(me, listing, cursor, sender);
    var most, last := listing[..|listing| - 1], listing[|listing| - 1];
    var e :| e in listing && e.sender == sender && e.number == n;
    if e in most {
      PendingReaches(me, most, all, cursor, sender, n);
    } else {
      assert last == e;
      if n > Expected(cursor, sender) {
        FewerVisible(all, sender, Expected(cursor, sender), n);
        var before :| before in all && before.sender == sender && before.number == n - 1;
        EarlierInListing(all, |listing| - 1, before);
        PendingReaches(me, most, all, cursor, sender, n - 1);
      } else {
        NeverBack(me, most, cursor, sender);
      }
    }
  }

  lemma PendingOneMore(me: nat, listing: seq<Entry>, cursor: map<nat, nat>, sender: nat)
    requires sender != me && listing != []
    ensures var last := listing[|listing| - 1];
      var before := Expected(Pending(me, listing[..|listing| - 1], cursor).1, sender);
      Expected(Pending(me, listing, cursor).1, sender)
        == if last.sender == sender && last.number == before then before + 1 else before
  { }

  lemma NeverBack(me: nat, listing: seq<Entry>, cursor: map<nat, nat>, sender: nat)
    requires sender != me
    ensures Expected(Pending(me, listing, cursor).1, sender) >= Expected(cursor, sender)
  { }

  lemma FewerVisible(all: seq<Entry>, sender: nat, low: nat, n: nat)
    requires AllVisible(all, sender, low, n) && low < n
    ensures AllVisible(all, sender, low, n - 1) && Visible(all, sender, n - 1)
  { }

  lemma EarlierInListing(all: seq<Entry>, at: nat, before: Entry)
    requires Ordered(all) && at < |all| && before in all && before.time < all[at].time
    ensures before in all[..at]
  { }

  /** Once a sender's messages up to `n` are all visible, one look hands over every
    * one of them that was not handed over before. */
  lemma OneLookIsEnough(me: nat, files: set<Entry>, look: seq<Entry>, cursor: map<nat, nat>, sender: nat, n: nat)
    requires Numbered(files) && (forall e :: e in look ==> e in files) && sender != me
    requires Expected(cursor, sender) <= n && AllVisible(look, sender, Expected(cursor, sender), n)
    ensures Expected(Pending(me, Sort(look), cursor).1, sender) > n
    ensures ReceivedFrom(me, [look], cursor) == Pending(me, Sort(look), cursor)
  {
    SortOrders(look);
    assert Sort(look)[..|Sort(look)|] == Sort(look);
    forall k: nat | Expected(cursor, sender) <= k <= n ensures Visible(Sort(look), sender, k) {
      assert Visible(look, sender, k);
    }
    PendingReaches(me, Sort(look), Sort(look), cursor, sender, n);
    PendingIsConsecutive(me, Sort(look), cursor, sender);
    assert [look][1..] == [];
  }

  // -------------------------------------------------------------------------
  // Every interleaving

  /** The folder, one reader's cursor file, and all it was ever handed. */
  datatype Channel = Channel(files: set<Entry>, cursor: map<nat, nat>, handed: seq<Entry>)

  /** Somebody sends, or the reader looks; files may appear to it in any order, so a
    * look sees any part of the folder. Restarts change nothing that is kept. */
  datatype Action =
    | Sends(sender: nat, listing: seq<Entry>, now: nat, text: nat)
    | Looks(looks: seq<seq<Entry>>, readable: Entry -> bool, saves: bool)

  ghost predicate Possible(ch: Channel, action: Action)
  {
    match action
    case Sends(sender, listing, _, _) =>
      forall e :: e in ch.files && e.sender == sender <==> e in listing && e.sender == sender
    case Looks(looks, _, _) => forall look, e :: look in looks && e in look ==> e in ch.files
  }

  function After(me: nat, ch: Channel, action: Action): Channel
  {
    match action
    case Sends(sender, listing, now, text) =>
      var mine := Mine(sender, listing);
      ch.(files := ch.files + {Entry(SendTime(mine, now), sender, LastNumber(mine) + 1, text)})
    case Looks(looks, readable, saves) =>
      var (ready, next) := ReceivedFrom(me, looks, ch.cursor);
      if Fails(ready, readable, saves) then ch else Channel(ch.files, next, ch.handed + ready)
  }

  /** From every sender the reader has messages 1 up to its cursor, in order. */
  ghost predicate InOrder(me: nat, ch: Channel)
  {
    && Numbered(ch.files)
    && (forall e :: e in ch.handed ==> e in ch.files)
    && forall sender :: sender != me ==> Consecutive(From(sender, ch.handed), 1, Expected(ch.cursor, sender))
  }

  lemma {:induction false} FromBoth(sender: nat, left: seq<Entry>, right: seq<Entry>)
    ensures From(sender, left + right) == From(sender, left) + From(sender, right)
  {
    if right == [] {
      assert left + right == left;
    } else {
      assert (left + right)[..|left + right| - 1] == left + right[..|right| - 1];
      FromBoth(sender, left, right[..|right| - 1]);
    }
  }

  lemma {:induction false} ReceivedIsConsecutive(me: nat, looks: seq<seq<Entry>>, cursor: map<nat, nat>, sender: nat)
    requires sender != me
    ensures var (ready, next) := ReceivedFrom(me, looks, cursor);
      && Consecutive(From(sender, ready), Expected(cursor, sender), Expected(next, sender))
      && forall e :: e in ready ==> exists look :: look in looks && e in look
  {
    if looks != [] {
      var look := looks[0];
      SortOrders(look);
      PendingIsConsecutive(me, Sort(look), cursor, sender);
      if Pending(me, Sort(look), cursor).0 == [] {
        ReceivedIsConsecutive(me, looks[1..], cursor, sender);
        assert forall l :: l in looks[1..] ==> l in looks;
      } else {
        assert look in looks;
      }
    }
  }

  /** Under every interleaving of sends, clocks, appearances and looks, what a reader
    * was handed from a sender is that sender's messages 1, 2, ... with no gap and no
    * repeat. */
  lemma ActionKeepsOrder(me: nat, ch: Channel, action: Action)
    requires InOrder(me, ch) && Possible(ch, action)
    ensures InOrder(me, After(me, ch, action))
  {
    match action
    case Sends(sender, listing, now, text) => SendKeepsNumbers(ch.files, listing, sender, now, text);
    case Looks(looks, readable, saves) => LookKeepsOrder(me, ch, looks, readable, saves);
  }

  lemma LookKeepsOrder(me: nat, ch: Channel, looks: seq<seq<Entry>>, readable: Entry -> bool, saves: bool)
    requires InOrder(me, ch) && Possible(ch, Looks(looks, readable, saves))
    ensures InOrder(me, After(me, ch, Looks(looks, readable, saves)))
  {
    hide ReceivedFrom;
    var (ready, next) := ReceivedFrom(me, looks, ch.cursor);
    forall sender | sender != me ensures Consecutive(From(sender, ch.handed + ready), 1, Expected(next, sender)) {
      ReceivedIsConsecutive(me, looks, ch.cursor, sender);
      FromBoth(sender, ch.handed, ready);
    }
    ReceivedIsConsecutive(me, looks, ch.cursor, me + 1);
  }

  ghost predicate AllPossible(me: nat, ch: Channel, actions: seq<Action>)
  {
    actions == [] ||
      (AllPossible(me, ch, actions[..|actions| - 1])
       && Possible(Acted(me, ch, actions[..|actions| - 1]), actions[|actions| - 1]))
  }

  function Acted(me: nat, ch: Channel, actions: seq<Action>): Channel
  { if actions == [] then ch else After(me, Acted(me, ch, actions[..|actions| - 1]), actions[|actions| - 1]) }

  lemma {:induction false} EveryInterleavingKeepsOrder(me: nat, actions: seq<Action>)
    requires AllPossible(me, Channel({}, map[], []), actions)
    ensures InOrder(me, Acted(me, Channel({}, map[], []), actions))
  {
    hide InOrder, Possible, After;
    if actions == [] {
      assert InOrder(me, Channel({}, map[], [])) by { EmptyIsInOrder(me); }
    } else {
      EveryInterleavingKeepsOrder(me, actions[..|actions| - 1]);
      ActionKeepsOrder(me, Acted(me, Channel({}, map[], []), actions[..|actions| - 1]), actions[|actions| - 1]);
    }
  }

  lemma EmptyIsInOrder(me: nat)
    ensures InOrder(me, Channel({}, map[], []))
  { }
}
