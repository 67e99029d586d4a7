/** Checking the shares a PSBT holds, and deriving the scripts they give. */
module Shares {
  import opened Wrappers
  import opened Curve
  import opened Chain
  import opened Derive
  import opened PsbtV2
  import Dleq

  // -------------------------------------------------------------------------
  // What the checks mean

  predicate RecipientsOk(c: Curve, outputs: seq<Output>)
  {
    forall o :: 0 <= o < |outputs| && outputs[o].info.Some? ==>
      IsPoint(c, outputs[o].info.value.scan) && IsPoint(c, outputs[o].info.value.spend)
  }

  predicate PaysScan(outputs: seq<Output>, scan: nat)
  { exists o :: 0 <= o < |outputs| && outputs[o].info.Some? && outputs[o].info.value.scan == scan }

  /** Every share is for a scan key some output pays, has its proof, and the
    * proof holds for this input's own key; no proof stands alone. */
  predicate InputSharesOk(e: Env, outputs: seq<Output>, fact: Spend, held: Held)
  {
    && InputKey(e, fact).Some?
    && (forall scan :: scan in held.shares ==> ShareOk(e, outputs, InputKey(e, fact).value, held, scan))
    && (forall scan :: scan in held.proofs ==> scan in held.shares)
  }

  predicate ShareOk(e: Env, outputs: seq<Output>, key: nat, held: Held, scan: nat)
    requires scan in held.shares
  {
    && PaysScan(outputs, scan)
    && scan in held.proofs
    && Dleq.Verify(e.curve, key, scan, held.shares[scan], held.proofs[scan])
  }

  predicate AllSharesOk(e: Env, p: Psbt)
  {
    && !HasGlobalShare(p.global)
    && RecipientsOk(e.curve, p.outputs)
    && forall i :: 0 <= i < |p.inputs| ==> InputSharesOk(e, p.outputs, p.inputs[i].fact, p.inputs[i].held)
  }

  predicate CompleteFor(inputs: seq<Input>, scan: nat)
  { forall i :: 0 <= i < |inputs| ==> scan in inputs[i].held.shares }

  /** Output `o` is a silent payment whose every share is here. */
  predicate Completed(p: Psbt, o: nat)
  { o < |p.outputs| && p.outputs[o].info.Some? && CompleteFor(p.inputs, p.outputs[o].info.value.scan) }

  predicate Complete(p: Psbt)
  { forall o :: 0 <= o < |p.outputs| && p.outputs[o].info.Some? ==> Completed(p, o) }

  // -------------------------------------------------------------------------
  // What the shares derive, output by output

  /** Recipient `j` is counted before recipient `o`: same scan key, and a lower
    * spend key or the same one at an earlier output. */
  predicate CountsBefore(c: Curve, outputs: seq<Output>, j: nat, o: nat)
    requires j < |outputs| && o < |outputs| && outputs[o].info.Some?
  {
    && outputs[j].info.Some?
    && outputs[j].info.value.scan == outputs[o].info.value.scan
    && var mine, theirs := c.serialize(outputs[o].info.value.spend), c.serialize(outputs[j].info.value.spend);
       theirs < mine || (theirs == mine && j < o)
  }

  /** The `k` BIP-375 fixes for an output: how many recipients come before it. */
  function Rank(c: Curve, outputs: seq<Output>, o: nat): nat
    requires o < |outputs| && outputs[o].info.Some?
  { |set j | 0 <= j < |outputs| && CountsBefore(c, outputs, j, o)| }

  function KeyOf(e: Env): Input -> nat
  { (i: Input) => if InputKey(e, i.fact).Some? then InputKey(e, i.fact).value else 0 }

  function KeysOf(e: Env, inputs: seq<Input>): seq<nat>
  { MapSeq(KeyOf(e), inputs) }

  predicate AllKeyed(e: Env, inputs: seq<Input>)
  { forall i :: 0 <= i < |inputs| ==> InputKey(e, inputs[i].fact).Some? }

  function ShareOf(scan: nat): Input -> nat
  { (i: Input) => if scan in i.held.shares then i.held.shares[scan] else 0 }

  function SharesFor(inputs: seq<Input>, scan: nat): seq<nat>
  { MapSeq(ShareOf(scan), inputs) }

  /** The input hash, once every input has a key and their sum is a point. */
  function HashOf(e: Env, inputs: seq<Input>): Option<nat>
  {
    if !AllKeyed(e, inputs) then None else
    var aSum := Combine(e.curve, KeysOf(e, inputs));
    if aSum.None? then None else InputHash(e.curve, CoinsOf(inputs), aSum.value)
  }

  function CoinsOf(inputs: seq<Input>): seq<OutPoint>
  { MapSeq((i: Input) => i.fact.coin, inputs) }

  function ScriptAt(e: Env, p: Psbt, o: nat): Option<Script>
    requires o < |p.outputs| && p.outputs[o].info.Some?
  {
    var info := p.outputs[o].info.value;
    var hash := HashOf(e, p.inputs);
    var cSum := Combine(e.curve, SharesFor(p.inputs, info.scan));
    if hash.None? || cSum.None? then None
    else OutputScript(e.curve, cSum.value, info.spend, hash.value, Rank(e.curve, p.outputs, o))
  }

  predicate Derivable(e: Env, p: Psbt)
  { forall o :: 0 <= o < |p.outputs| && Completed(p, o) ==> ScriptAt(e, p, o).Some? }

  function Derived(e: Env, p: Psbt): map<nat, Script>
    requires Derivable(e, p)
  { map o | 0 <= o < |p.outputs| && Completed(p, o) :: ScriptAt(e, p, o).value }

  /** A PSBT whose silent payment fields agree with each other. */
  predicate Audited(e: Env, p: Psbt)
  {
    && (forall i :: 0 <= i < |p.inputs| ==> SighashIsAll(p.inputs[i].fact))
    && AllSharesOk(e, p)
    && Derivable(e, p)
    && (forall o :: 0 <= o < |p.outputs| && p.outputs[o].info.Some? && p.outputs[o].script != NO_SCRIPT ==>
          && Completed(p, o)
          && ScriptAt(e, p, o) == Some(p.outputs[o].script)
          && p.global.flags == 0)
  }

  // -------------------------------------------------------------------------
  // The code

  datatype Recipient = Recipient(output: nat, scan: nat, spend: nat)

  function RecipientAt(outputs: seq<Output>, o: nat): Recipient
    requires o < |outputs| && outputs[o].info.Some?
  { Recipient(o, outputs[o].info.value.scan, outputs[o].info.value.spend) }

  predicate IsRecipient(outputs: seq<Output>, r: Recipient)
  { r.output < |outputs| && outputs[r.output].info.Some? && r == RecipientAt(outputs, r.output) }

  /** Exactly the silent payment outputs, in output order. */
  ghost predicate ListsRecipients(outputs: seq<Output>, found: seq<Recipient>)
  {
    && (forall k :: 0 <= k < |found| ==> IsRecipient(outputs, found[k]))
    && (forall j, k :: 0 <= j < k < |found| ==> found[j].output < found[k].output)
    && (forall o :: 0 <= o < |outputs| && outputs[o].info.Some? ==> RecipientAt(outputs, o) in found)
  }

  method Recipients(c: Curve, outputs: seq<Output>) returns (r: Result<seq<Recipient>, Refusal>)
    ensures r.Ok? <==> RecipientsOk(c, outputs)
    ensures r.Ok? ==> ListsRecipients(outputs, r.value)
    ensures r.Err? ==> r.why == BadRecipient
  {
    var found := [];
    for o := 0 to |outputs|
      invariant RecipientsOk(c, outputs[..o])
      invariant ListsRecipients(outputs[..o], found)
    {
      var info := outputs[o].info;
      assert forall j :: 0 <= j < o ==> outputs[..o + 1][j] == outputs[..o][j];
      if info.None? {
        continue;
      }
      if !IsPoint(c, info.value.scan) || !IsPoint(c, info.value.spend) {
        return Err(BadRecipient);
      }
      found := found + [Recipient(o, info.value.scan, info.value.spend)];
    }
    assert outputs[..|outputs|] == outputs;
    return Ok(found);
  }

  /** Which shares a PSBT holds, every one of them verified. */
  datatype Shares = Shares(scanKeys: seq<nat>, verified: set<(nat, nat)>, inputs: nat) {
    predicate CompleteFor(scan: nat)
    { forall input :: 0 <= input < inputs ==> (input, scan) in verified }

    /** The `(input, scan key)` pairs that still have no share. */
    function Missing(): set<(nat, nat)>
    { set scan, input | scan in scanKeys && 0 <= input < inputs && (input, scan) !in verified :: (input, scan) }
  }

  ghost predicate Describes(shares: Shares, p: Psbt)
  {
    && shares.inputs == |p.inputs|
    && (forall scan :: scan in shares.scanKeys <==> PaysScan(p.outputs, scan))
    && (forall i: nat, scan :: (i, scan) in shares.verified <==>
          i < |p.inputs| && scan in p.inputs[i].held.shares)
  }

  function PairsOf(index: nat, scans: set<nat>): (pairs: set<(nat, nat)>)
    ensures forall i: nat, scan: nat :: (i, scan) in pairs <==> i == index && scan in scans
  { set scan | scan in scans :: (index, scan) }

  /** Exactly the shares of the first `n` inputs. */
  ghost predicate VerifiedSoFar(inputs: seq<Input>, n: nat, verified: set<(nat, nat)>)
    requires n <= |inputs|
  { forall i: nat, scan :: (i, scan) in verified <==> i < n && scan in inputs[i].held.shares }

  lemma OneMoreVerified(inputs: seq<Input>, n: nat, verified: set<(nat, nat)>)
    requires n < |inputs| && VerifiedSoFar(inputs, n, verified)
    ensures VerifiedSoFar(inputs, n + 1, verified + PairsOf(n, inputs[n].held.shares.Keys))
  { }

  method CheckShares(e: Env, p: Psbt) returns (r: Result<Shares, Refusal>)
    ensures r.Ok? <==> AllSharesOk(e, p)
    ensures r.Ok? ==> Describes(r.value, p)
  {
    hide InputSharesOk, RecipientsOk, ListsRecipients;
    if HasGlobalShare(p.global) { return Err(GlobalShare); }
    var recipients := Recipients(e.curve, p.outputs);
    if recipients.Err? { return Err(recipients.why); }
    var scanKeys := ScanKeys(p.outputs, recipients.value);
    var verified: set<(nat, nat)> := {};
    for index := 0 to |p.inputs|
      invariant forall i :: 0 <= i < index ==> InputSharesOk(e, p.outputs, p.inputs[i].fact, p.inputs[i].held)
      invariant VerifiedSoFar(p.inputs, index, verified)
    {
      var fact, held := p.inputs[index].fact, p.inputs[index].held;
      var ok := CheckInputShares(e, p.outputs, scanKeys, fact, held);
      if !ok { return Err(BadShare); }
      OneMoreVerified(p.inputs, index, verified);
      verified := verified + PairsOf(index, held.shares.Keys);
    }
    return Ok(Shares(scanKeys, verified, |p.inputs|));
  }

  /** The distinct scan keys, in the order they first appear. */
  method ScanKeys(ghost outputs: seq<Output>, recipients: seq<Recipient>) returns (keys: seq<nat>)
    requires ListsRecipients(outputs, recipients)
    ensures forall scan :: scan in keys <==> PaysScan(outputs, scan)
    ensures forall j, k :: 0 <= j < k < |keys| ==> keys[j] != keys[k]
  {
    keys := [];
    for i := 0 to |recipients|
      invariant forall j, k :: 0 <= j < k < |keys| ==> keys[j] != keys[k]
      invariant forall scan :: scan in keys <==> exists k :: 0 <= k < i && recipients[k].scan == scan
    {
      if recipients[i].scan !in keys {
        keys := keys + [recipients[i].scan];
      }
    }
    forall scan | PaysScan(outputs, scan) ensures scan in keys {
      var o :| 0 <= o < |outputs| && outputs[o].info.Some? && outputs[o].info.value.scan == scan;
      assert RecipientAt(outputs, o) in recipients;
    }
  }

  method CheckInputShares(e: Env, outputs: seq<Output>, scanKeys: seq<nat>, fact: Spend, held: Held) returns (ok: bool)
    requires forall scan :: scan in scanKeys <==> PaysScan(outputs, scan)
    ensures ok <==> InputSharesOk(e, outputs, fact, held)
  {
    var key := InputKey(e, fact);
    if key.None? { return false; }
    var todo := held.shares.Keys;
    while todo != {}
      invariant todo <= held.shares.Keys
      invariant forall scan :: scan in held.shares && scan !in todo ==> ShareOk(e, outputs, key.value, held, scan)
    {
      var scan :| scan in todo;
      if scan !in scanKeys || scan !in held.proofs { return false; }
      if !Dleq.Verify(e.curve, key.value, scan, held.shares[scan], held.proofs[scan]) { return false; }
      todo := todo - {scan};
    }
    return forall scan :: scan in held.proofs ==> scan in held.shares;
  }

  // -------------------------------------------------------------------------
  // The order `k` counts in: a stable sort by spend key

  function Insert(c: Curve, r: Recipient, sorted: seq<Recipient>): seq<Recipient>
  {
    if sorted == [] || c.serialize(r.spend) <= c.serialize(sorted[0].spend) then [r] + sorted
    else [sorted[0]] + Insert(c, r, sorted[1..])
  }

  /** What a stable sort by the serialized spend key returns. */
  function StableSort(c: Curve, group: seq<Recipient>): seq<Recipient>
  { if group == [] then [] else Insert(c, group[0], StableSort(c, group[1..])) }

  predicate Ordered(c: Curve, l: Recipient, r: Recipient)
  {
    || c.serialize(l.spend) < c.serialize(r.spend)
    || (c.serialize(l.spend) == c.serialize(r.spend) && l.output < r.output)
  }

  ghost predicate Sorted(c: Curve, s: seq<Recipient>)
  { forall j, k :: 0 <= j < k < |s| ==> Ordered(c, s[j], s[k]) }

  lemma {:induction false} InsertAdds(c: Curve, r: Recipient, sorted: seq<Recipient>)
    ensures multiset(Insert(c, r, sorted)) == multiset(sorted) + multiset{r}
    ensures forall x :: x in Insert(c, r, sorted) <==> x == r || x in sorted
  {
    var result := Insert(c, r, sorted);
    if !(sorted == [] || c.serialize(r.spend) <= c.serialize(sorted[0].spend)) {
      InsertAdds(c, r, sorted[1..]);
      assert sorted == [sorted[0]] + sorted[1..];
    }
    assert multiset(result) == multiset(sorted) + multiset{r};
    forall x ensures x in result <==> x == r || x in sorted {
      assert x in result <==> x in multiset(result);
      assert x in sorted <==> x in multiset(sorted);
    }
  }

  lemma {:induction false} InsertKeeps(c: Curve, r: Recipient, sorted: seq<Recipient>)
    requires Sorted(c, sorted) && forall x :: x in sorted ==> r.output < x.output
    ensures Sorted(c, Insert(c, r, sorted))
  {
    if !(sorted == [] || c.serialize(r.spend) <= c.serialize(sorted[0].spend)) {
      var rest := Insert(c, r, sorted[1..]);
      InsertKeeps(c, r, sorted[1..]);
      InsertAdds(c, r, sorted[1..]);
      forall k | 0 <= k < |rest| ensures Ordered(c, sorted[0], rest[k]) {
        assert rest[k] in rest;
        if rest[k] != r {
          var i :| 0 <= i < |sorted[1..]| && sorted[1..][i] == rest[k];
          assert sorted[i + 1] == rest[k];
        }
      }
    }
  }

  lemma {:induction false} StableSortSorts(c: Curve, group: seq<Recipient>)
    requires forall j, k :: 0 <= j < k < |group| ==> group[j].output < group[k].output
    ensures Sorted(c, StableSort(c, group))
    ensures multiset(StableSort(c, group)) == multiset(group)
    ensures forall x :: x in StableSort(c, group) <==> x in group
  {
    if group != [] {
      StableSortSorts(c, group[1..]);
      InsertKeeps(c, group[0], StableSort(c, group[1..]));
      InsertAdds(c, group[0], StableSort(c, group[1..]));
      assert group == [group[0]] + group[1..];
      assert forall x :: x in group <==> x == group[0] || x in group[1..];
    }
  }

  /** The position a stable sort gives a recipient is its rank. */
  lemma PositionIsRank(c: Curve, outputs: seq<Output>, scan: nat, sorted: seq<Recipient>, k: nat)
    requires Sorted(c, sorted) && k < |sorted|
    requires forall x :: x in sorted <==> (IsRecipient(outputs, x) && x.scan == scan)
    ensures sorted[k].output < |outputs| && outputs[sorted[k].output].info.Some?
    ensures Rank(c, outputs, sorted[k].output) == k
  {
    assert sorted[k] in sorted;
    var o := sorted[k].output;
    var before := set j | 0 <= j < |outputs| && CountsBefore(c, outputs, j, o);
    var listed := FirstOutputs(sorted, k);
    forall j | j in before ensures j in listed {
      assert RecipientAt(outputs, j) in sorted;
      var i :| 0 <= i < |sorted| && sorted[i] == RecipientAt(outputs, j);
      assert i > k ==> Ordered(c, sorted[k], sorted[i]);
    }
    forall j | j in listed ensures j in before {
      var i :| 0 <= i < k && sorted[i].output == j;
      assert sorted[i] in sorted && Ordered(c, sorted[i], sorted[k]);
    }
    assert before == listed;
    FirstOutputsCount(sorted, k);
  }

  ghost function FirstOutputs(sorted: seq<Recipient>, k: nat): set<nat>
    requires k <= |sorted|
  { set i | 0 <= i < k :: sorted[i].output }

  lemma {:induction false} FirstOutputsCount(sorted: seq<Recipient>, k: nat)
    requires k <= |sorted|
    requires forall i, j :: 0 <= i < j < k ==> sorted[i].output != sorted[j].output
    ensures |FirstOutputs(sorted, k)| == k
  {
    if k > 0 {
      FirstOutputsCount(sorted, k - 1);
      OneMoreOutput(sorted, k);
      assert sorted[k - 1].output !in FirstOutputs(sorted, k - 1);
    }
  }

  lemma OneMoreOutput(sorted: seq<Recipient>, k: nat)
    requires 0 < k <= |sorted|
    ensures FirstOutputs(sorted, k) == FirstOutputs(sorted, k - 1) + {sorted[k - 1].output}
  { }

  // -------------------------------------------------------------------------
  // Deriving

  function Group(recipients: seq<Recipient>, scan: nat): (group: seq<Recipient>)
    ensures forall r :: r in group <==> r in recipients && r.scan == scan
    ensures (forall j, k :: 0 <= j < k < |recipients| ==> recipients[j].output < recipients[k].output)
      ==> forall j, k :: 0 <= j < k < |group| ==> group[j].output < group[k].output
  {
    if recipients == [] then [] else
    assert forall r :: r in recipients <==> r == recipients[0] || r in recipients[1..];
    var rest := Group(recipients[1..], scan);
    if recipients[0].scan == scan then [recipients[0]] + rest else rest
  }

  method CompleteScans(p: Psbt, shares: Shares) returns (complete: seq<nat>)
    requires Describes(shares, p)
    ensures forall scan :: scan in complete <==> PaysScan(p.outputs, scan) && CompleteFor(p.inputs, scan)
  {
    complete := [];
    for i := 0 to |shares.scanKeys|
      invariant forall scan :: scan in complete <==> scan in shares.scanKeys[..i] && CompleteFor(p.inputs, scan)
    {
      assert shares.CompleteFor(shares.scanKeys[i]) == CompleteFor(p.inputs, shares.scanKeys[i]);
      if shares.CompleteFor(shares.scanKeys[i]) {
        complete := complete + [shares.scanKeys[i]];
      }
    }
    assert shares.scanKeys[..|shares.scanKeys|] == shares.scanKeys;
  }

  /** Derive the script of every silent payment output whose shares are complete. */
  method DeriveScripts(e: Env, p: Psbt, shares: Shares) returns (r: Result<map<nat, Script>, Refusal>)
    requires Describes(shares, p) && RecipientsOk(e.curve, p.outputs)
    ensures r == if Derivable(e, p) then Ok(Derived(e, p)) else Err(Underivable)
  {
    var recipients := Recipients(e.curve, p.outputs);
    var complete := CompleteScans(p, shares);
    if complete == [] {
      AllGroupsDerived(e, p, complete, map[]);
      return Ok(map[]);
    }
    var hash := HashOf(e, p.inputs);
    if hash.None? {
      assert complete[0] in complete;
      Underived(e, p, complete[0]);
      return Err(Underivable);
    }
    r := DeriveGroups(e, p, recipients.value, complete, hash.value);
  }

  method DeriveGroups(e: Env, p: Psbt, recipients: seq<Recipient>, complete: seq<nat>, hash: nat)
    returns (r: Result<map<nat, Script>, Refusal>)
    requires ListsRecipients(p.outputs, recipients) && HashOf(e, p.inputs) == Some(hash)
    requires forall scan :: scan in complete <==> PaysScan(p.outputs, scan) && CompleteFor(p.inputs, scan)
    ensures r == if Derivable(e, p) then Ok(Derived(e, p)) else Err(Underivable)
  {
    var scripts: map<nat, Script> := map[];
    for i := 0 to |complete|
      invariant InGroups(p, complete[..i], scripts.Keys)
      invariant forall o: nat :: o in scripts ==> ScriptAt(e, p, o) == Some(scripts[o])
    {
      var scan := complete[i];
      assert scan in complete;
      var cSum := Combine(e.curve, SharesFor(p.inputs, scan));
      if cSum.None? {
        Underived(e, p, scan);
        return Err(Underivable);
      }
      var group := StableSort(e.curve, Group(recipients, scan));
      SortedGroup(e.curve, p.outputs, recipients, scan);
      var added := DeriveGroup(e, p, scan, group, cSum.value, hash);
      if added.Err? {
        return Err(Underivable);
      }
      GroupsGrow(p, complete, i, scripts.Keys, added.value.Keys);
      scripts := scripts + added.value;
    }
    assert complete[..|complete|] == complete;
    AllGroupsDerived(e, p, complete, scripts);
    return Ok(scripts);
  }

  lemma GroupsGrow(p: Psbt, scans: seq<nat>, i: nat, found: set<nat>, added: set<nat>)
    requires i < |scans| && InGroups(p, scans[..i], found) && InGroups(p, [scans[i]], added)
    ensures InGroups(p, scans[..i + 1], found + added)
  { }

  lemma AllGroupsDerived(e: Env, p: Psbt, complete: seq<nat>, scripts: map<nat, Script>)
    requires forall scan :: scan in complete <==> PaysScan(p.outputs, scan) && CompleteFor(p.inputs, scan)
    requires InGroups(p, complete, scripts.Keys)
    requires forall o: nat :: o in scripts ==> ScriptAt(e, p, o) == Some(scripts[o])
    ensures Derivable(e, p) && scripts == Derived(e, p)
  {
    hide ScriptAt, CompleteFor;
    forall o: nat ensures o in scripts <==> Completed(p, o) {
      if Completed(p, o) { assert PaysScan(p.outputs, p.outputs[o].info.value.scan); }
    }
  }

  ghost predicate InGroups(p: Psbt, scans: seq<nat>, found: set<nat>)
  {
    forall o: nat :: o in found <==> o < |p.outputs| && p.outputs[o].info.Some? && p.outputs[o].info.value.scan in scans
  }

  method DeriveGroup(e: Env, p: Psbt, scan: nat, group: seq<Recipient>, cSum: nat, hash: nat)
    returns (r: Result<map<nat, Script>, Refusal>)
    requires CompleteFor(p.inputs, scan) && Sorted(e.curve, group)
    requires forall x :: x in group <==> (IsRecipient(p.outputs, x) && x.scan == scan)
    requires HashOf(e, p.inputs) == Some(hash) && Combine(e.curve, SharesFor(p.inputs, scan)) == Some(cSum)
    ensures r.Err? ==> !Derivable(e, p)
    ensures r.Ok? ==> InGroups(p, [scan], r.value.Keys)
    ensures r.Ok? ==> forall o: nat :: o in r.value ==> ScriptAt(e, p, o) == Some(r.value[o])
  {
    hide ScriptAt, OutputScript, HashOf, Rank, Sorted;
    var scripts: map<nat, Script> := map[];
    for k := 0 to |group|
      invariant forall o: nat :: o in scripts <==> exists j :: 0 <= j < k && group[j].output == o
      invariant forall o: nat :: o in scripts ==> (o < |p.outputs| && p.outputs[o].info.Some?
        && p.outputs[o].info.value.scan == scan && ScriptAt(e, p, o) == Some(scripts[o]))
    {
      assert group[k] in group;
      ScriptOfGroup(e, p, scan, group, cSum, hash, k);
      var script := OutputScript(e.curve, cSum, group[k].spend, hash, k);
      if script.None? {
        assert Completed(p, group[k].output);
        return Err(Underivable);
      }
      scripts := scripts[group[k].output := script.value];
    }
    forall o: nat | o < |p.outputs| && p.outputs[o].info.Some? && p.outputs[o].info.value.scan == scan
      ensures o in scripts
    {
      assert RecipientAt(p.outputs, o) in group;
    }
    return Ok(scripts);
  }

  lemma ScriptOfGroup(e: Env, p: Psbt, scan: nat, group: seq<Recipient>, cSum: nat, hash: nat, k: nat)
    requires Sorted(e.curve, group) && k < |group|
    requires forall x :: x in group <==> (IsRecipient(p.outputs, x) && x.scan == scan)
    requires HashOf(e, p.inputs) == Some(hash) && Combine(e.curve, SharesFor(p.inputs, scan)) == Some(cSum)
    ensures var o := group[k].output;
      && o < |p.outputs| && p.outputs[o].info.Some? && p.outputs[o].info.value.scan == scan
      && ScriptAt(e, p, o) == OutputScript(e.curve, cSum, group[k].spend, hash, k)
  {
    assert group[k] in group;
    PositionIsRank(e.curve, p.outputs, scan, group, k);
  }

  lemma SortedGroup(c: Curve, outputs: seq<Output>, recipients: seq<Recipient>, scan: nat)
    requires ListsRecipients(outputs, recipients)
    ensures var group := StableSort(c, Group(recipients, scan));
      && Sorted(c, group)
      && forall x :: x in group <==> (IsRecipient(outputs, x) && x.scan == scan)
  {
    StableSortSorts(c, Group(recipients, scan));
    forall x ensures x in recipients <==> IsRecipient(outputs, x) {
      if IsRecipient(outputs, x) { assert RecipientAt(outputs, x.output) in recipients; }
    }
  }

  /** A complete scan key whose hash or share sum fails stops the derivation. */
  lemma Underived(e: Env, p: Psbt, scan: nat)
    requires PaysScan(p.outputs, scan) && CompleteFor(p.inputs, scan)
    requires HashOf(e, p.inputs).None? || Combine(e.curve, SharesFor(p.inputs, scan)).None?
    ensures !Derivable(e, p)
  {
    var o :| 0 <= o < |p.outputs| && p.outputs[o].info.Some? && p.outputs[o].info.value.scan == scan;
    assert Completed(p, o);
  }

  /** Check a PSBT's silent payment fields against each other. */
  method Audit(e: Env, p: Psbt) returns (r: Result<Shares, Refusal>)
    ensures r.Ok? <==> Audited(e, p)
    ensures r.Ok? ==> Describes(r.value, p)
  {
    for i := 0 to |p.inputs|
      invariant forall j :: 0 <= j < i ==> SighashIsAll(p.inputs[j].fact)
    {
      if !SighashIsAll(p.inputs[i].fact) { return Err(BadInput); }
    }
    var shares := CheckShares(e, p);
    if shares.Err? { return shares; }
    var derived := DeriveScripts(e, p, shares.value);
    if derived.Err? { return Err(derived.why); }
    for o := 0 to |p.outputs|
      invariant forall j :: 0 <= j < o && p.outputs[j].info.Some? && p.outputs[j].script != NO_SCRIPT ==>
        Completed(p, j) && ScriptAt(e, p, j) == Some(p.outputs[j].script) && p.global.flags == 0
    {
      var output := p.outputs[o];
      if output.info.None? || output.script == NO_SCRIPT { continue; }
      if o !in derived.value || derived.value[o] != output.script { return Err(WrongScript); }
      if p.global.flags != 0 { return Err(StillOpen); }
    }
    return shares;
  }
}
