/** The incremental scan: a table of found outputs that has to agree with a scan
  * from scratch, across reorganisations. */
module ChainScan {
  import opened Wrappers
  import opened Sets
  import Chain

  type OutPoint = Chain.OutPoint

  /** What is known of a found output besides where it is: its transaction fixes it. */
  datatype Fact = Fact(tweak: nat, script: nat, amount: nat, tag: Option<nat>)

  datatype Found = Found(coin: OutPoint, fact: Fact)

  datatype Row = Row(fact: Fact, height: nat)

  /** The height a payment seen in the mempool is stored under. */
  const UNCONFIRMED: nat := 0

  const MAX_REORG_DEPTH: nat := 20

  datatype Mark = Mark(height: nat, hash: Option<nat>)

  datatype Tables = Tables(rows: map<OutPoint, Row>, mark: Option<Mark>)

  // -------------------------------------------------------------------------
  // The store

  /** A repeat changes the height of the row and nothing else. */
  function PutOne(rows: map<OutPoint, Row>, f: Found, height: nat): map<OutPoint, Row>
  { if f.coin in rows then rows[f.coin := rows[f.coin].(height := height)] else rows[f.coin := Row(f.fact, height)] }

  function Put(rows: map<OutPoint, Row>, found: seq<Found>, height: nat): map<OutPoint, Row>
  { if found == [] then rows else PutOne(Put(rows, found[..|found| - 1], height), found[|found| - 1], height) }

  predicate Forgotten(row: Row, height: nat) { row.height >= height && row.height != UNCONFIRMED }

  function Kept(rows: map<OutPoint, Row>, height: nat): map<OutPoint, Row>
  { map coin | coin in rows && !Forgotten(rows[coin], height) :: rows[coin] }

  class Store {
    var rows: map<OutPoint, Row>
    var mark: Option<Mark>

    function State(): Tables
      reads this
    { Tables(rows, mark) }

    constructor (t: Tables)
      ensures State() == t
    { rows, mark := t.rows, t.mark; }

    method PutFound(found: seq<Found>, height: nat)
      modifies this
      ensures State() == old(State()).(rows := Put(old(rows), found, height))
    {
      for i := 0 to |found|
        invariant rows == Put(old(rows), found[..i], height) && mark == old(mark)
      {
        assert found[..i + 1][..i] == found[..i];
        var item := found[i];
        if item.coin in rows {
          rows := rows[item.coin := rows[item.coin].(height := height)];
        } else {
          rows := rows[item.coin := Row(item.fact, height)];
        }
      }
      assert found[..|found|] == found;
    }

    method SetWatermark(height: nat, hash: nat)
      modifies this
      ensures State() == old(State()).(mark := Some(Mark(height, Some(hash))))
    { mark := Some(Mark(height, Some(hash))); }

    /** How many rows went. */
    method ForgetFrom(height: nat) returns (removed: nat)
      modifies this
      ensures State() == old(State()).(rows := Kept(old(rows), height))
      ensures removed + |rows| == |old(rows)|
      ensures removed == 0 <==> forall coin :: coin in old(rows) ==> !Forgotten(old(rows)[coin], height)
    {
      var before := rows;
      rows := Kept(rows, height);
      FewerRows(before, rows);
      removed := |before| - |rows|;
      assert rows.Keys == before.Keys <==> forall coin :: coin in before ==> !Forgotten(before[coin], height) by {
        forall coin | coin in before ensures coin in rows <==> !Forgotten(before[coin], height) { }
      }
    }

    /** Where a scan resumes, given what the backend says the recorded height's hash
      * is now, if it can say. */
    method ResumeFrom(explicit: Option<nat>, answer: nat -> Option<nat>, tip: nat) returns (start: nat)
      modifies this
      ensures (start, State()) == Resumed(old(State()), explicit, answer, tip)
    {
      if explicit.Some? { return explicit.value; }
      if mark.None? { return tip; }
      var height := mark.value.height;
      if mark.value.hash.None? { return height; }
      var now := answer(height);
      if now.None? || now == mark.value.hash { return height; }
      var at := if height < MAX_REORG_DEPTH then 0 else height - MAX_REORG_DEPTH;
      var dropped := ForgetFrom(at);
      return at;
    }

    /** Scan up to `count` heights from where the last scan stopped; `tip` is as far as
      * the source of the scan has come, and it may be behind the chain. */
    method Scan(chain: BestChain, tip: nat, count: nat) returns (start: nat)
      requires tip < |chain.blocks|
      modifies this
      ensures (start, State()) == Scanned(old(State()), chain, tip, count)
    {
      start := ResumeFrom(None, HashAt(chain), tip);
      if start > tip { return; }
      ghost var begun := State();
      var height := start;
      while height <= tip && height - start < count
        invariant start <= height <= tip + 1 && height - start <= count
        invariant State() == Walked(begun, chain, start, height)
      {
        PutFound(chain.blocks[height].found, height);
        SetWatermark(height, chain.blocks[height].hash);
        height := height + 1;
      }
    }
  }

  lemma FewerRows(before: map<OutPoint, Row>, after: map<OutPoint, Row>)
    requires after.Keys <= before.Keys && forall coin :: coin in after ==> after[coin] == before[coin]
    ensures |after| <= |before| && (|after| == |before| ==> after.Keys == before.Keys)
  {
    SubsetSize(after.Keys, before.Keys);
    assert |after| == |after.Keys| && |before| == |before.Keys|;
  }

  // -------------------------------------------------------------------------
  // What a scan means

  /** A block by its hash and this wallet's outputs in it. */
  datatype Block = Block(hash: nat, found: seq<Found>)

  datatype BestChain = BestChain(blocks: seq<Block>)

  function HashAt(chain: BestChain): nat -> Option<nat>
  { (h: nat) => if h < |chain.blocks| then Some(chain.blocks[h].hash) else None }

  function Rewound(height: nat): nat { if height < MAX_REORG_DEPTH then 0 else height - MAX_REORG_DEPTH }

  predicate Rewinds(t: Tables, answer: nat -> Option<nat>)
  {
    t.mark.Some? && t.mark.value.hash.Some?
    && answer(t.mark.value.height).Some? && answer(t.mark.value.height) != t.mark.value.hash
  }

  function Resumed(t: Tables, explicit: Option<nat>, answer: nat -> Option<nat>, tip: nat): (nat, Tables)
  {
    if explicit.Some? then (explicit.value, t)
    else if t.mark.None? then (tip, t)
    else if Rewinds(t, answer) then
      var at := Rewound(t.mark.value.height);
      (at, t.(rows := Kept(t.rows, at)))
    else (t.mark.value.height, t)
  }

  /** The heights from `start` below `stop`, one after another. */
  function Walked(t: Tables, chain: BestChain, start: nat, stop: nat): Tables
    requires start <= stop <= |chain.blocks|
    decreases stop
  {
    if start == stop then t
    else
      var before := Walked(t, chain, start, stop - 1);
      Tables(Put(before.rows, chain.blocks[stop - 1].found, stop - 1),
             Some(Mark(stop - 1, Some(chain.blocks[stop - 1].hash))))
  }

  function Stop(tip: nat, start: nat, count: nat): nat
    requires start <= tip
  { if start + count <= tip + 1 then start + count else tip + 1 }

  function Scanned(t: Tables, chain: BestChain, tip: nat, count: nat): (nat, Tables)
    requires tip < |chain.blocks|
  {
    var (start, begun) := Resumed(t, None, HashAt(chain), tip);
    if start > tip then (start, begun)
    else (start, Walked(begun, chain, start, Stop(tip, start, count)))
  }

  // -------------------------------------------------------------------------
  // What it has to equal

  /** One transaction makes one output, wherever it is mined, and is mined once. */
  ghost predicate Sensible(chain: BestChain, fact: OutPoint -> Fact)
  {
    && |chain.blocks| > 0 && chain.blocks[0].found == []
    && (forall k, f :: 0 <= k < |chain.blocks| && f in chain.blocks[k].found ==> f.fact == fact(f.coin))
    && forall j, k, f, g :: 0 <= j < k < |chain.blocks| && f in chain.blocks[j].found && g in chain.blocks[k].found ==>
        f.coin != g.coin
  }

  /** The confirmed rows are exactly this chain's outputs from `low` below `high`,
    * without the heights that are missing. */
  ghost predicate Matches(rows: map<OutPoint, Row>, chain: BestChain, low: nat, high: nat, missing: set<nat>)
    requires high <= |chain.blocks|
  {
    && (forall coin :: coin in rows && rows[coin].height != UNCONFIRMED ==>
          && low <= rows[coin].height < high && rows[coin].height !in missing
          && Found(coin, rows[coin].fact) in chain.blocks[rows[coin].height].found)
    && (forall k, f :: low <= k < high && k !in missing && f in chain.blocks[k].found ==>
          f.coin in rows && rows[f.coin] == Row(f.fact, k))
  }

  function Confirmed(rows: map<OutPoint, Row>): map<OutPoint, Row>
  { map coin | coin in rows && rows[coin].height != UNCONFIRMED :: rows[coin] }

  ghost predicate True(rows: map<OutPoint, Row>, fact: OutPoint -> Fact)
  { forall coin :: coin in rows ==> rows[coin].fact == fact(coin) }

  /** Nothing of this wallet is in the blocks that are missing. */
  ghost predicate NothingMissed(chain: BestChain, low: nat, high: nat, missing: set<nat>)
    requires high <= |chain.blocks|
  { forall k :: low <= k < high && k in missing ==> chain.blocks[k].found == [] }

  /** Rows with missing heights equal rows without exactly when nothing was missed. */
  lemma SameRowsIffNothingMissed(left: map<OutPoint, Row>, right: map<OutPoint, Row>, chain: BestChain,
                                 fact: OutPoint -> Fact, low: nat, high: nat, missing: set<nat>)
    requires Sensible(chain, fact) && high <= |chain.blocks|
    requires Matches(left, chain, low, high, missing) && Matches(right, chain, low, high, {})
    ensures Confirmed(left) == Confirmed(right) <==> NothingMissed(chain, low, high, missing)
    ensures Matches(left, chain, low, high, {}) <==> NothingMissed(chain, low, high, missing)
  {
    hide Matches, Sensible, Confirmed, NothingMissed;
    if NothingMissed(chain, low, high, missing) {
      MatchesWithNothingMissed(left, chain, low, high, missing);
      SameRows(left, right, chain, low, high);
    } else {
      SomethingMissed(left, right, chain, fact, low, high, missing);
    }
  }

  lemma MatchesWithNothingMissed(rows: map<OutPoint, Row>, chain: BestChain, low: nat, high: nat, missing: set<nat>)
    requires high <= |chain.blocks| && Matches(rows, chain, low, high, missing)
    requires NothingMissed(chain, low, high, missing)
    ensures Matches(rows, chain, low, high, {})
  { }

  lemma SomethingMissed(left: map<OutPoint, Row>, right: map<OutPoint, Row>, chain: BestChain,
                        fact: OutPoint -> Fact, low: nat, high: nat, missing: set<nat>)
    requires Sensible(chain, fact) && high <= |chain.blocks| && !NothingMissed(chain, low, high, missing)
    requires Matches(left, chain, low, high, missing) && Matches(right, chain, low, high, {})
    ensures Confirmed(left) != Confirmed(right) && !Matches(left, chain, low, high, {})
  {
    var k :| low <= k < high && k in missing && chain.blocks[k].found != [];
    var f := chain.blocks[k].found[0];
    assert f in chain.blocks[k].found && right[f.coin] == Row(f.fact, k);
    assert f.coin in Confirmed(right);
    assert f.coin in left && left[f.coin].height == k ==> k == UNCONFIRMED;
  }

  lemma SameRows(left: map<OutPoint, Row>, right: map<OutPoint, Row>, chain: BestChain, low: nat, high: nat)
    requires high <= |chain.blocks|
    requires Matches(left, chain, low, high, {}) && Matches(right, chain, low, high, {})
    ensures Confirmed(left) == Confirmed(right)
  {
    hide Matches;
    forall coin | coin in Confirmed(left) ensures coin in Confirmed(right) && right[coin] == left[coin] {
      SameRow(left, right, chain, low, high, coin);
    }
    forall coin | coin in Confirmed(right) ensures coin in Confirmed(left) {
      SameRow(right, left, chain, low, high, coin);
    }
  }

  lemma SameRow(left: map<OutPoint, Row>, right: map<OutPoint, Row>, chain: BestChain, low: nat, high: nat,
                coin: OutPoint)
    requires high <= |chain.blocks| && coin in left && left[coin].height != UNCONFIRMED
    requires Matches(left, chain, low, high, {}) && Matches(right, chain, low, high, {})
    ensures coin in right && right[coin] == left[coin]
  {
    var f := Found(coin, left[coin].fact);
    assert f in chain.blocks[left[coin].height].found;
    assert f.coin in right;
  }

  ghost predicate PutHere(row: Row, found: seq<Found>, height: nat, coin: OutPoint, fact: OutPoint -> Fact)
  { row == Row(fact(coin), height) && Found(coin, fact(coin)) in found }

  lemma {:induction false} PutMeans(rows: map<OutPoint, Row>, found: seq<Found>, height: nat, fact: OutPoint -> Fact)
    requires True(rows, fact) && forall f :: f in found ==> f.fact == fact(f.coin)
    ensures var after := Put(rows, found, height);
      && True(after, fact)
      && (forall f :: f in found ==> f.coin in after && after[f.coin] == Row(f.fact, height))
      && (forall coin :: coin in rows ==> coin in after)
      && (forall coin :: coin in after ==>
            PutHere(after[coin], found, height, coin, fact) || (coin in rows && after[coin] == rows[coin]))
  {
    if found != [] {
      PutMeans(rows, found[..|found| - 1], height, fact);
      assert forall f :: f in found ==> f in found[..|found| - 1] || f == found[|found| - 1];
      var last := found[|found| - 1];
      assert last == Found(last.coin, fact(last.coin));
    }
  }

  /** Those of `heights` below `height`. */
  function Below(heights: set<nat>, height: nat): set<nat>
  { set k | k in heights && k < height }

  /** Walking over one more height keeps the rows matching, and fills it in. */
  lemma WalkOne(t: Tables, chain: BestChain, fact: OutPoint -> Fact, low: nat, height: nat, missing: set<nat>)
    requires Sensible(chain, fact) && height < |chain.blocks| && low <= height && True(t.rows, fact)
    requires Matches(t.rows, chain, low, height, missing) || Matches(t.rows, chain, low, height + 1, missing)
    ensures var rows := Put(t.rows, chain.blocks[height].found, height);
      True(rows, fact) && Matches(rows, chain, low, height + 1, Below(missing, height))
  {
    var found, left := chain.blocks[height].found, Below(missing, height);
    PutMeans(t.rows, found, height, fact);
    var rows := Put(t.rows, found, height);
    forall k, f | low <= k < height + 1 && k !in left && f in chain.blocks[k].found
      ensures f.coin in rows && rows[f.coin] == Row(f.fact, k)
    {
      if k < height {
        assert t.rows[f.coin] == Row(f.fact, k);
        assert forall g :: g in found ==> g.coin != f.coin;
      }
    }
  }

  lemma {:induction false} WalkMatches(t: Tables, chain: BestChain, fact: OutPoint -> Fact, low: nat, start: nat,
                                       stop: nat, missing: set<nat>)
    requires Sensible(chain, fact) && low <= start < stop <= |chain.blocks| && True(t.rows, fact)
    requires Matches(t.rows, chain, low, start, missing) || Matches(t.rows, chain, low, start + 1, missing)
    ensures var after := Walked(t, chain, start, stop);
      && True(after.rows, fact) && Matches(after.rows, chain, low, stop, Below(missing, start))
      && after.mark == Some(Mark(stop - 1, Some(chain.blocks[stop - 1].hash)))
    decreases stop
  {
    hide Sensible, True, Matches, Put;
    if stop > start + 1 {
      WalkMatches(t, chain, fact, low, start, stop - 1, missing);
      WalkOne(Walked(t, chain, start, stop - 1), chain, fact, low, stop - 1, Below(missing, start));
      assert Below(Below(missing, start), stop - 1) == Below(missing, start);
    } else {
      WalkOne(t, chain, fact, low, start, missing);
    }
  }

  // -------------------------------------------------------------------------
  // Across reorganisations

  /** The store's watermark is this chain's, and it holds what a scan from `low` up to
    * there leaves, without the heights that are missing. */
  ghost predicate Tracks(t: Tables, chain: BestChain, fact: OutPoint -> Fact, low: nat, missing: set<nat>)
  {
    && t.mark.Some? && low <= t.mark.value.height < |chain.blocks|
    && t.mark.value.hash == Some(chain.blocks[t.mark.value.height].hash)
    && True(t.rows, fact) && Matches(t.rows, chain, low, t.mark.value.height + 1, missing)
  }

  ghost predicate InSync(t: Tables, chain: BestChain, fact: OutPoint -> Fact, low: nat)
  { Tracks(t, chain, fact, low, {}) }

  const NEVER_SCANNED := Tables(map[], None)

  function Fresh(chain: BestChain, low: nat, height: nat): map<OutPoint, Row>
    requires low <= height < |chain.blocks|
  { Confirmed(Walked(NEVER_SCANNED, chain, low, height + 1).rows) }

  ghost predicate EqualsFresh(t: Tables, chain: BestChain, low: nat)
  {
    && t.mark.Some? && low <= t.mark.value.height < |chain.blocks|
    && Confirmed(t.rows) == Fresh(chain, low, t.mark.value.height)
  }

  /** The store equals a scan from scratch over the heights it covers exactly when
    * nothing of this wallet is in the missing blocks; with none missing it always does. */
  lemma TracksEqualsFreshIff(t: Tables, chain: BestChain, fact: OutPoint -> Fact, low: nat, missing: set<nat>)
    requires Sensible(chain, fact) && Tracks(t, chain, fact, low, missing)
    ensures EqualsFresh(t, chain, low) <==> NothingMissed(chain, low, t.mark.value.height + 1, missing)
    ensures InSync(t, chain, fact, low) <==> NothingMissed(chain, low, t.mark.value.height + 1, missing)
  {
    hide Sensible, Put, Walked, NothingMissed;
    var high := t.mark.value.height + 1;
    assert Matches(NEVER_SCANNED.rows, chain, low, low, {});
    WalkMatches(NEVER_SCANNED, chain, fact, low, low, high, {});
    assert Below({}, low) == {};
    SameRowsIffNothingMissed(t.rows, Walked(NEVER_SCANNED, chain, low, high).rows, chain, fact, low, high, missing);
  }

  /** A block's hash commits to every block below it. */
  ghost predicate Linked(before: BestChain, now: BestChain, height: nat)
    requires height < |before.blocks| && height < |now.blocks|
  { before.blocks[height].hash == now.blocks[height].hash ==> before.blocks[..height + 1] == now.blocks[..height + 1] }

  /** The chain as it was scanned, and as it is now: if it still reaches the recorded
    * height, it agrees below the depth a scan rewinds. */
  ghost predicate Moved(before: BestChain, now: BestChain, height: nat)
  {
    && height < |before.blocks|
    && (height < |now.blocks| ==>
          Linked(before, now, height) && before.blocks[..Rewound(height)] == now.blocks[..Rewound(height)])
  }

  function LowerOf(low: nat, start: nat): nat { if start < low then start else low }

  lemma MatchesSame(rows: map<OutPoint, Row>, before: BestChain, now: BestChain, low: nat, high: nat, missing: set<nat>)
    requires high <= |before.blocks| && high <= |now.blocks| && before.blocks[..high] == now.blocks[..high]
    requires Matches(rows, before, low, high, missing)
    ensures Matches(rows, now, low, high, missing)
  {
    forall k | 0 <= k < high ensures before.blocks[k] == now.blocks[k] {
      assert before.blocks[..high][k] == now.blocks[..high][k];
    }
  }

  lemma ForgetMatches(rows: map<OutPoint, Row>, chain: BestChain, low: nat, high: nat, at: nat, missing: set<nat>)
    requires at <= high <= |chain.blocks| && Matches(rows, chain, low, high, missing)
    ensures Matches(Kept(rows, at), chain, LowerOf(low, at), at, missing)
    ensures Matches(Kept(rows, at), chain, low, high, missing + Heights(at, high))
  {
    hide Matches, Kept;
    ForgetShortens(rows, chain, low, high, at, missing);
    ForgetLeavesMissing(rows, chain, low, high, at, missing);
  }

  lemma ForgetShortens(rows: map<OutPoint, Row>, chain: BestChain, low: nat, high: nat, at: nat, missing: set<nat>)
    requires at <= high <= |chain.blocks| && Matches(rows, chain, low, high, missing)
    ensures Matches(Kept(rows, at), chain, LowerOf(low, at), at, missing)
  { }

  lemma ForgetLeavesMissing(rows: map<OutPoint, Row>, chain: BestChain, low: nat, high: nat, at: nat, missing: set<nat>)
    requires at <= high <= |chain.blocks| && Matches(rows, chain, low, high, missing)
    ensures Matches(Kept(rows, at), chain, low, high, missing + Heights(at, high))
  { }

  lemma KeptIsTrue(rows: map<OutPoint, Row>, at: nat, fact: OutPoint -> Fact)
    requires True(rows, fact)
    ensures True(Kept(rows, at), fact)
  { }

  /** The heights from `low` below `high`. */
  function Heights(low: nat, high: nat): (r: set<nat>)
    ensures forall k: nat :: k in r <==> low <= k < high
  { if high <= low then {} else Heights(low, high - 1) + {high - 1} }

  /** Where a scan starts. */
  function Start(t: Tables, now: BestChain): nat
    requires t.mark.Some?
  { if Rewinds(t, HashAt(now)) then Rewound(t.mark.value.height) else t.mark.value.height }

  /** A scan that gets past its first height: it is not stopped before, and its source
    * has come that far. */
  predicate Walks(t: Tables, now: BestChain, tip: nat, count: nat)
    requires t.mark.Some?
  { count > 0 && Start(t, now) <= tip }

  /** A scan that rewinds and does not get past its first height. */
  predicate StopsShort(t: Tables, now: BestChain, tip: nat, count: nat)
    requires t.mark.Some?
  { Rewinds(t, HashAt(now)) && !Walks(t, now, tip, count) }

  /** Which heights are missing after a scan: one that stops short adds everything it
    * dropped, and one that walks fills in everything from where it starts. */
  function MissingAfter(t: Tables, now: BestChain, tip: nat, count: nat, missing: set<nat>): set<nat>
    requires t.mark.Some?
  {
    if Walks(t, now, tip, count) then Below(missing, Start(t, now))
    else if Rewinds(t, HashAt(now)) then missing + Heights(Start(t, now), t.mark.value.height + 1)
    else missing
  }

  /** The chain the watermark names after a scan. */
  function ChainAfter(t: Tables, before: BestChain, now: BestChain, tip: nat, count: nat): BestChain
    requires t.mark.Some?
  { if Walks(t, now, tip, count) then now else before }

  function LowAfter(t: Tables, now: BestChain, tip: nat, count: nat, low: nat): nat
    requires t.mark.Some?
  { if Walks(t, now, tip, count) && Rewinds(t, HashAt(now)) then LowerOf(low, Start(t, now)) else low }

  /** One scan, reorganised or not and stopped anywhere: the store goes on tracking the
    * chain its watermark names, with exactly these heights missing. */
  lemma ScanTracks(t: Tables, before: BestChain, now: BestChain, fact: OutPoint -> Fact, low: nat, missing: set<nat>,
                   tip: nat, count: nat)
    requires Sensible(now, fact) && Tracks(t, before, fact, low, missing)
    requires Moved(before, now, t.mark.value.height) && tip < |now.blocks|
    ensures Tracks(Scanned(t, now, tip, count).1, ChainAfter(t, before, now, tip, count), fact,
                   LowAfter(t, now, tip, count, low), MissingAfter(t, now, tip, count, missing))
  {
    hide Sensible, Matches, True, Put;
    var height := t.mark.value.height;
    var (start, begun) := Resumed(t, None, HashAt(now), tip);
    if Rewinds(t, HashAt(now)) {
      ForgetMatches(t.rows, before, low, height + 1, start, missing);
      KeptIsTrue(t.rows, start, fact);
      if Walks(t, now, tip, count) {
        MatchesSame(begun.rows, before, now, LowerOf(low, start), start, missing);
        WalkMatches(begun, now, fact, LowerOf(low, start), start, Stop(tip, start, count), missing);
      }
    } else if Walks(t, now, tip, count) {
      MatchesSame(t.rows, before, now, low, height + 1, missing);
      WalkMatches(begun, now, fact, low, start, Stop(tip, start, count), missing);
    }
  }

  /** So a scan that does not stop short keeps the store in sync, across any
    * reorganisation within the depth. */
  lemma ScanStaysInSync(t: Tables, before: BestChain, now: BestChain, fact: OutPoint -> Fact, low: nat,
                        tip: nat, count: nat)
    requires Sensible(now, fact) && InSync(t, before, fact, low) && !StopsShort(t, now, tip, count)
    requires Moved(before, now, t.mark.value.height) && tip < |now.blocks|
    ensures InSync(Scanned(t, now, tip, count).1, ChainAfter(t, before, now, tip, count), fact,
                   LowAfter(t, now, tip, count, low))
  {
    hide Sensible, Scanned, Matches, True;
    ScanTracks(t, before, now, fact, low, {}, tip, count);
    assert MissingAfter(t, now, tip, count, {}) == {};
  }

  /** The first scan starts where the chain is now. */
  lemma FirstScanIsInSync(rows: map<OutPoint, Row>, chain: BestChain, fact: OutPoint -> Fact, tip: nat, count: nat)
    requires Sensible(chain, fact) && True(rows, fact) && Confirmed(rows) == map[] && count > 0 && tip < |chain.blocks|
    ensures InSync(Scanned(Tables(rows, None), chain, tip, count).1, chain, fact, tip)
  {
    var t := Tables(rows, None);
    assert forall coin :: coin in rows && rows[coin].height != UNCONFIRMED ==> coin in Confirmed(rows);
    assert Matches(rows, chain, tip, tip, {});
    WalkMatches(t, chain, fact, tip, tip, Stop(tip, tip, count), {});
    assert Below({}, tip) == {};
  }

  // -------------------------------------------------------------------------
  // Any number of scans

  /** One later scan: the chain as it is by then, how far its source has come, and how
    * many heights it gets through. */
  datatype Visit = Visit(chain: BestChain, tip: nat, count: nat)

  /** The chain changes only between scans, and where it still reaches the recorded
    * height it agrees below the rewind depth with the one the watermark names. Scans
    * stop at any height boundary. */
  ghost predicate Usual(t: Tables, before: BestChain, visits: seq<Visit>, fact: OutPoint -> Fact)
    decreases |visits|
  {
    visits == [] || (
      var now, tip, count := visits[0].chain, visits[0].tip, visits[0].count;
      && t.mark.Some? && Sensible(now, fact) && Moved(before, now, t.mark.value.height)
      && tip < |now.blocks|
      && Usual(Scanned(t, now, tip, count).1, ChainAfter(t, before, now, tip, count), visits[1..], fact))
  }

  /** The store after these scans, the chain its watermark names, the lowest height it
    * covers, and the heights that are missing. */
  datatype Ran = Ran(tables: Tables, chain: BestChain, low: nat, missing: set<nat>)

  ghost function AfterVisits(ran: Ran, visits: seq<Visit>, fact: OutPoint -> Fact): Ran
    requires Usual(ran.tables, ran.chain, visits, fact)
    decreases |visits|
  {
    if visits == [] then ran
    else AfterVisits(AfterVisit(ran, visits[0]), visits[1..], fact)
  }

  ghost function AfterVisit(ran: Ran, visit: Visit): Ran
    requires ran.tables.mark.Some? && visit.tip < |visit.chain.blocks|
  {
    var t := ran.tables;
    Ran(Scanned(t, visit.chain, visit.tip, visit.count).1,
        ChainAfter(t, ran.chain, visit.chain, visit.tip, visit.count),
        LowAfter(t, visit.chain, visit.tip, visit.count, ran.low),
        MissingAfter(t, visit.chain, visit.tip, visit.count, ran.missing))
  }

  lemma {:induction false} EveryScanTracks(ran: Ran, visits: seq<Visit>, fact: OutPoint -> Fact)
    requires Sensible(ran.chain, fact) && Tracks(ran.tables, ran.chain, fact, ran.low, ran.missing)
    requires Usual(ran.tables, ran.chain, visits, fact)
    ensures var after := AfterVisits(ran, visits, fact);
      && Sensible(after.chain, fact) && Tracks(after.tables, after.chain, fact, after.low, after.missing)
      && after.low <= ran.low
    decreases |visits|
  {
    hide Moved, Scanned, Sensible, Tracks;
    if visits != [] {
      var visit := visits[0];
      ScanTracks(ran.tables, ran.chain, visit.chain, fact, ran.low, ran.missing, visit.tip, visit.count);
      EveryScanTracks(AfterVisit(ran, visit), visits[1..], fact);
    }
  }

  /** However often the chain is reorganised between scans and wherever scans stop, the
    * store equals a fresh scan over the heights it covers if and only if none of the
    * blocks that a scan dropped and no later one walked again holds a payment. */
  lemma EveryScanEqualsFreshIff(t: Tables, chain: BestChain, visits: seq<Visit>, fact: OutPoint -> Fact, low: nat)
    requires Sensible(chain, fact) && InSync(t, chain, fact, low) && Usual(t, chain, visits, fact)
    ensures var after := AfterVisits(Ran(t, chain, low, {}), visits, fact);
      && after.low <= low && after.tables.mark.Some? && after.tables.mark.value.height < |after.chain.blocks|
      && var high := after.tables.mark.value.height + 1;
      EqualsFresh(after.tables, after.chain, after.low) <==> NothingMissed(after.chain, after.low, high, after.missing)
  {
    hide AfterVisits, Usual, Sensible, NothingMissed, EqualsFresh, Matches, True;
    var ran := Ran(t, chain, low, {});
    EveryScanTracks(ran, visits, fact);
    var after := AfterVisits(ran, visits, fact);
    TracksEqualsFreshIff(after.tables, after.chain, fact, after.low, after.missing);
  }

  /** No scan of the run stops short. */
  ghost predicate NeverShort(ran: Ran, visits: seq<Visit>, fact: OutPoint -> Fact)
    requires Usual(ran.tables, ran.chain, visits, fact)
    decreases |visits|
  {
    visits == [] || (
      && !StopsShort(ran.tables, visits[0].chain, visits[0].tip, visits[0].count)
      && NeverShort(AfterVisit(ran, visits[0]), visits[1..], fact))
  }

  /** In particular it always does when no scan was stopped right after rewinding. */
  lemma {:induction false} NothingMissingUnlessShort(ran: Ran, visits: seq<Visit>, fact: OutPoint -> Fact)
    requires Usual(ran.tables, ran.chain, visits, fact) && NeverShort(ran, visits, fact) && ran.missing == {}
    ensures AfterVisits(ran, visits, fact).missing == {}
    decreases |visits|
  {
    hide Moved, Scanned, Sensible;
    if visits != [] {
      var visit := visits[0];
      assert MissingAfter(ran.tables, visit.chain, visit.tip, visit.count, {}) == {};
      NothingMissingUnlessShort(AfterVisit(ran, visit), visits[1..], fact);
    }
  }

  // -------------------------------------------------------------------------
  // Stopped right after a rewind

  predicate NothingBetween(rows: map<OutPoint, Row>, at: nat, height: nat)
  {
    forall coin :: coin in rows && rows[coin].height != UNCONFIRMED ==>
      rows[coin].height < at || rows[coin].height >= height
  }

  lemma FoundStandsBetween(t: Tables, chain: BestChain, fact: OutPoint -> Fact, low: nat, at: nat, k: nat, f: Found)
    requires InSync(t, chain, fact, low) && Sensible(chain, fact)
    requires low <= k && at <= k < t.mark.value.height && f in chain.blocks[k].found
    ensures !NothingBetween(t.rows, at, t.mark.value.height)
  { assert f.coin in t.rows && t.rows[f.coin] == Row(f.fact, k); }

  lemma NothingBetweenIsNothingMissed(t: Tables, chain: BestChain, now: BestChain, fact: OutPoint -> Fact, low: nat,
                                      at: nat, high: nat)
    requires InSync(t, chain, fact, low) && Sensible(chain, fact)
    requires at <= t.mark.value.height < high <= |now.blocks| && t.mark.value.height < |now.blocks|
    requires chain.blocks[..t.mark.value.height + 1] == now.blocks[..t.mark.value.height + 1]
    ensures NothingMissed(now, low, high, Heights(at, t.mark.value.height))
      <==> NothingBetween(t.rows, at, t.mark.value.height)
  {
    var height := t.mark.value.height;
    forall k | 0 <= k <= height ensures chain.blocks[k] == now.blocks[k] {
      assert chain.blocks[..height + 1][k] == now.blocks[..height + 1][k];
    }
    if NothingBetween(t.rows, at, height) {
      forall k | low <= k < high && k in Heights(at, height) ensures now.blocks[k].found == [] {
        if now.blocks[k].found != [] {
          hide Matches, NothingBetween;
          FoundStandsBetween(t, chain, fact, low, at, k, now.blocks[k].found[0]);
        }
      }
    }
    if NothingMissed(now, low, high, Heights(at, height)) {
      forall coin | coin in t.rows && t.rows[coin].height != UNCONFIRMED
        ensures t.rows[coin].height < at || t.rows[coin].height >= height
      {
        var k := t.rows[coin].height;
        assert Found(coin, t.rows[coin].fact) in now.blocks[k].found;
      }
    }
  }

  /** A scan that rewinds and is stopped before its first height leaves the old
    * watermark over rows it dropped. Whatever the chain is by the next scan that gets
    * past its first height, that scan repairs the store if and only if it rewinds too
    * or nothing had been found between the rewound height and the recorded one. */
  lemma StoppedRewindThenAny(t: Tables, chain: BestChain, other: BestChain, now: BestChain, fact: OutPoint -> Fact,
                             low: nat, otherTip: nat, otherCount: nat, tip: nat, count: nat)
    requires Sensible(chain, fact) && Sensible(now, fact) && InSync(t, chain, fact, low)
    requires Moved(chain, other, t.mark.value.height) && Sensible(other, fact)
    requires Moved(chain, now, t.mark.value.height) && StopsShort(t, other, otherTip, otherCount)
    requires otherTip < |other.blocks| && tip < |now.blocks| && Walks(t, now, tip, count)
    ensures InSync(Scanned(Scanned(t, other, otherTip, otherCount).1, now, tip, count).1, now, fact,
                   LowAfter(t, now, tip, count, low))
      <==> Rewinds(t, HashAt(now)) || NothingBetween(t.rows, Rewound(t.mark.value.height), t.mark.value.height)
  {
    TracksHasMark(t, chain, fact, low, {});
    hide Sensible, Tracks, InSync, Kept, Moved, NothingMissed, NothingBetween, Scanned, Walks, StopsShort, MissingAfter,
         Heights, LowAfter, Rewinds;
    var height, at := t.mark.value.height, Rewound(t.mark.value.height);
    StoppedTracks(t, chain, other, fact, low, otherTip, otherCount);
    var stopped := Scanned(t, other, otherTip, otherCount).1;
    var after, left := NextTracks(t, stopped, chain, now, fact, low, tip, count);
    TracksEqualsFreshIff(after, now, fact, LowAfter(t, now, tip, count, low), left);
    TracksHasMark(after, now, fact, LowAfter(t, now, tip, count, low), left);
    if Rewinds(t, HashAt(now)) {
      NothingMissedOfNone(now, LowAfter(t, now, tip, count, low), after.mark.value.height + 1);
    } else {
      SameAfterNoRewind(t, chain, now, fact, low, tip, count);
      NothingBetweenIsNothingMissed(t, chain, now, fact, low, at, after.mark.value.height + 1);
    }
  }

  /** What the stop leaves behind. */
  lemma StoppedTracks(t: Tables, chain: BestChain, other: BestChain, fact: OutPoint -> Fact, low: nat,
                      tip: nat, count: nat)
    requires InSync(t, chain, fact, low) && Sensible(other, fact) && tip < |other.blocks|
    requires Moved(chain, other, t.mark.value.height) && StopsShort(t, other, tip, count)
    ensures var stopped := Scanned(t, other, tip, count).1;
      && stopped.mark == t.mark
      && Tracks(stopped, chain, fact, low, Heights(Rewound(t.mark.value.height), t.mark.value.height + 1))
  {
    hide Sensible, Matches, True, Kept, Moved;
    ScanTracks(t, chain, other, fact, low, {}, tip, count);
    var gone := Heights(Rewound(t.mark.value.height), t.mark.value.height + 1);
    assert {} + gone == gone;
  }

  /** What the next scan that walks makes of it. */
  lemma NextTracks(t: Tables, stopped: Tables, chain: BestChain, now: BestChain, fact: OutPoint -> Fact, low: nat,
                   tip: nat, count: nat) returns (after: Tables, left: set<nat>)
    requires t.mark.Some? && stopped.mark == t.mark && Sensible(now, fact)
    requires Tracks(stopped, chain, fact, low, Heights(Rewound(t.mark.value.height), t.mark.value.height + 1))
    requires Moved(chain, now, t.mark.value.height) && tip < |now.blocks| && Walks(t, now, tip, count)
    ensures after == Scanned(stopped, now, tip, count).1
    ensures Tracks(after, now, fact, LowAfter(t, now, tip, count, low), left)
    ensures left == if Rewinds(t, HashAt(now)) then {} else Heights(Rewound(t.mark.value.height), t.mark.value.height)
    ensures !Rewinds(t, HashAt(now)) ==> after.mark.Some? && after.mark.value.height >= t.mark.value.height
  {
    hide Sensible, Matches, True, Moved, Tracks;
    var height, at := t.mark.value.height, Rewound(t.mark.value.height);
    ScanTracks(stopped, chain, now, fact, low, Heights(at, height + 1), tip, count);
    after := Scanned(stopped, now, tip, count).1;
    left := Below(Heights(at, height + 1), Start(t, now));
  }

  lemma TracksHasMark(t: Tables, chain: BestChain, fact: OutPoint -> Fact, low: nat, missing: set<nat>)
    requires Tracks(t, chain, fact, low, missing)
    ensures t.mark.Some? && low <= t.mark.value.height < |chain.blocks|
  { }

  lemma SameAfterNoRewind(t: Tables, chain: BestChain, now: BestChain, fact: OutPoint -> Fact, low: nat, tip: nat,
                          count: nat)
    requires InSync(t, chain, fact, low) && tip < |now.blocks| && Walks(t, now, tip, count)
    requires Moved(chain, now, t.mark.value.height) && !Rewinds(t, HashAt(now))
    ensures LowAfter(t, now, tip, count, low) == low && t.mark.value.height < |now.blocks|
    ensures chain.blocks[..t.mark.value.height + 1] == now.blocks[..t.mark.value.height + 1]
  { SameUpTo(t, chain, now); }

  lemma NothingMissedOfNone(chain: BestChain, low: nat, high: nat)
    requires high <= |chain.blocks|
    ensures NothingMissed(chain, low, high, {})
  { }

  lemma SameUpTo(t: Tables, chain: BestChain, now: BestChain)
    requires t.mark.Some? && t.mark.value.height < |now.blocks|
    requires Moved(chain, now, t.mark.value.height) && !Rewinds(t, HashAt(now))
    requires t.mark.value.hash == Some(chain.blocks[t.mark.value.height].hash)
    ensures chain.blocks[..t.mark.value.height + 1] == now.blocks[..t.mark.value.height + 1]
  { }

  /** When the chain simply returns to the block the watermark names, the next scan sees
    * nothing wrong, and what was dropped below it stays lost. */
  lemma StoppedRewindThenReturn(t: Tables, chain: BestChain, other: BestChain, fact: OutPoint -> Fact, low: nat,
                                otherTip: nat, otherCount: nat, tip: nat, count: nat)
    requires Sensible(chain, fact) && InSync(t, chain, fact, low) && Sensible(other, fact)
    requires Moved(chain, other, t.mark.value.height) && StopsShort(t, other, otherTip, otherCount)
    requires otherTip < |other.blocks| && count > 0 && t.mark.value.height <= tip < |chain.blocks|
    ensures InSync(Scanned(Scanned(t, other, otherTip, otherCount).1, chain, tip, count).1, chain, fact, low)
      <==> NothingBetween(t.rows, Rewound(t.mark.value.height), t.mark.value.height)
  {
    hide Sensible, Matches, True, Scanned, NothingBetween;
    assert Moved(chain, chain, t.mark.value.height);
    StoppedRewindThenAny(t, chain, other, chain, fact, low, otherTip, otherCount, tip, count);
  }

  /** It happens: one payment at height 1, a reorganisation that goes away again. */
  lemma StoppedRewindLosesAPayment()
    ensures var coin := Chain.OutPoint(1, 0);
      var paid := Found(coin, Fact(0, 0, 1000, None));
      var chain := BestChain([Block(0, []), Block(1, [paid]), Block(2, [])]);
      var other := BestChain([Block(0, []), Block(7, []), Block(8, [])]);
      var t := Walked(NEVER_SCANNED, chain, 0, 3);
      && coin in t.rows
      && coin !in Scanned(Scanned(t, other, 2, 0).1, chain, 2, 3).1.rows
  {
    var coin := Chain.OutPoint(1, 0);
    var paid := Found(coin, Fact(0, 0, 1000, None));
    var chain := BestChain([Block(0, []), Block(1, [paid]), Block(2, [])]);
    var other := BestChain([Block(0, []), Block(7, []), Block(8, [])]);
    var row := map[coin := Row(paid.fact, 1)];
    OnePut(paid, 1);
    assert Walked(NEVER_SCANNED, chain, 0, 1) == Tables(map[], Some(Mark(0, Some(0))));
    assert Walked(NEVER_SCANNED, chain, 0, 2) == Tables(row, Some(Mark(1, Some(1))));
    var t := Walked(NEVER_SCANNED, chain, 0, 3);
    assert t == Tables(row, Some(Mark(2, Some(2))));
    var stopped := Scanned(t, other, 2, 0).1;
    assert stopped == Tables(map[], Some(Mark(2, Some(2))));
    assert Walked(stopped, chain, 2, 3).rows == map[];
    assert Scanned(stopped, chain, 2, 3).1 == Walked(stopped, chain, 2, 3);
  }

  lemma OnePut(f: Found, height: nat)
    ensures Put(map[], [f], height) == map[f.coin := Row(f.fact, height)]
  { assert [f][..0] == []; }
}
