/** Giving every silent payment recipient its own placeholder output. */
module Resolve {
  import opened Wrappers
  import opened Curve
  import opened Chain
  import opened Building

  /** The scripts of the outputs nobody has claimed, with their multiplicity. */
  function Unclaimed(outputs: seq<TxOut>, claimed: seq<bool>): multiset<Script>
    requires |claimed| == |outputs|
  {
    if outputs == [] then multiset{} else
    var most := Unclaimed(outputs[..|outputs| - 1], claimed[..|claimed| - 1]);
    if claimed[|claimed| - 1] then most else most + multiset{outputs[|outputs| - 1].script}
  }

  function Scripts(outputs: seq<TxOut>): multiset<Script>
  { multiset(MapSeq((o: TxOut) => o.script, outputs)) }

  function Placeholders(c: Curve, recipients: seq<Address>): multiset<Script>
  { multiset(MapSeq((a: Address) => Placeholder(c, a), recipients)) }

  lemma {:induction false} NothingClaimed(outputs: seq<TxOut>, claimed: seq<bool>)
    requires |claimed| == |outputs| && forall o :: 0 <= o < |outputs| ==> !claimed[o]
    ensures Unclaimed(outputs, claimed) == Scripts(outputs)
  {
    var script := (o: TxOut) => o.script;
    if outputs == [] {
      assert MapSeq(script, outputs) == [];
    } else {
      var most := outputs[..|outputs| - 1];
      NothingClaimed(most, claimed[..|claimed| - 1]);
      assert MapSeq(script, outputs) == MapSeq(script, most) + [outputs[|outputs| - 1].script];
    }
  }

  lemma {:induction false} ClaimTakesOne(outputs: seq<TxOut>, claimed: seq<bool>, at: nat)
    requires |claimed| == |outputs| && at < |outputs| && !claimed[at]
    ensures Unclaimed(outputs, claimed) == Unclaimed(outputs, claimed[at := true]) + multiset{outputs[at].script}
  {
    var most := |outputs| - 1;
    if at < most {
      ClaimTakesOne(outputs[..most], claimed[..most], at);
      assert claimed[at := true][..most] == claimed[..most][at := true];
    } else {
      assert claimed[at := true][..most] == claimed[..most];
    }
  }

  lemma {:induction false} UnclaimedIsSomewhere(outputs: seq<TxOut>, claimed: seq<bool>, script: Script)
    requires |claimed| == |outputs| && forall o :: 0 <= o < |outputs| ==> claimed[o] || outputs[o].script != script
    ensures Unclaimed(outputs, claimed)[script] == 0
  {
    if outputs != [] { UnclaimedIsSomewhere(outputs[..|outputs| - 1], claimed[..|claimed| - 1], script); }
  }

  /** Each recipient has an output of its own that pays its placeholder. */
  ghost predicate Assigned(c: Curve, outputs: seq<TxOut>, recipients: seq<Address>, at: seq<nat>)
  {
    && |at| == |recipients|
    && (forall i :: 0 <= i < |at| ==> at[i] < |outputs| && outputs[at[i]].script == Placeholder(c, recipients[i]))
    && forall i, j :: 0 <= i < j < |at| ==> at[i] != at[j]
  }

  lemma OneMorePlaceholder(c: Curve, recipients: seq<Address>, i: nat)
    requires i < |recipients|
    ensures Placeholders(c, recipients[..i + 1])
       == Placeholders(c, recipients[..i]) + multiset{Placeholder(c, recipients[i])}
    ensures Placeholders(c, recipients[..i + 1]) <= Placeholders(c, recipients)
  {
    var f := (a: Address) => Placeholder(c, a);
    var all := MapSeq(f, recipients);
    assert MapSeq(f, recipients[..i]) == all[..i];
    assert MapSeq(f, recipients[..i + 1]) == all[..i] + [all[i]] == all[..i + 1];
    assert all == all[..i + 1] + all[i + 1..];
  }

  method FirstUnclaimed(outputs: seq<TxOut>, claimed: array<bool>, script: Script) returns (index: nat)
    requires claimed.Length == |outputs|
    ensures index <= |outputs| && forall o :: 0 <= o < index ==> claimed[o] || outputs[o].script != script
    ensures index < |outputs| ==> !claimed[index] && outputs[index].script == script
  {
    index := 0;
    while index < |outputs| && (claimed[index] || outputs[index].script != script)
      invariant 0 <= index <= |outputs|
      invariant forall o :: 0 <= o < index ==> claimed[o] || outputs[o].script != script
    {
      index := index + 1;
    }
  }

  lemma AssignedGrows(c: Curve, outputs: seq<TxOut>, recipients: seq<Address>, i: nat, at: seq<nat>, index: nat)
    requires i < |recipients| && Assigned(c, outputs, recipients[..i], at)
    requires index < |outputs| && index !in at && outputs[index].script == Placeholder(c, recipients[i])
    ensures Assigned(c, outputs, recipients[..i + 1], at + [index])
  { }

  /** What has been asked for and is not there cannot be within what is. */
  lemma TooFew(all: multiset<Script>, left: multiset<Script>, asked: multiset<Script>, more: multiset<Script>,
               script: Script)
    requires all == left + asked && left[script] == 0 && asked + multiset{script} <= more
    ensures !(more <= all)
  { assert (asked + multiset{script})[script] > all[script]; }

  /** First come first served, and it succeeds exactly when there are as many outputs
    * for every placeholder as recipients that share it. */
  method ResolveOutputs(c: Curve, outputs: seq<TxOut>, recipients: seq<Address>) returns (r: Option<seq<nat>>)
    ensures r.Some? <==> Placeholders(c, recipients) <= Scripts(outputs)
    ensures r.Some? ==> Assigned(c, outputs, recipients, r.value)
  {
    hide Unclaimed, Scripts, Placeholders, Placeholder, Assigned;
    var claimed := new bool[|outputs|](_ => false);
    var resolved: seq<nat> := [];
    Nobody(c, outputs, claimed[..]);
    assert recipients[..0] == [];
    for i := 0 to |recipients|
      invariant Assigned(c, outputs, recipients[..i], resolved)
      invariant forall o :: 0 <= o < |outputs| ==> (claimed[o] <==> o in resolved)
      invariant Scripts(outputs) == Unclaimed(outputs, claimed[..]) + Placeholders(c, recipients[..i])
    {
      OneMorePlaceholder(c, recipients, i);
      var index := FirstUnclaimed(outputs, claimed, Placeholder(c, recipients[i]));
      if index == |outputs| {
        UnclaimedIsSomewhere(outputs, claimed[..], Placeholder(c, recipients[i]));
        TooFew(Scripts(outputs), Unclaimed(outputs, claimed[..]),
               Placeholders(c, recipients[..i]), Placeholders(c, recipients),
          Placeholder(c, recipients[i]));
        return None;
      }
      ClaimTakesOne(outputs, claimed[..], index);
      AssignedGrows(c, outputs, recipients, i, resolved, index);
      ghost var before := claimed[..];
      claimed[index] := true;
      assert claimed[..] == before[index := true];
      resolved := resolved + [index];
    }
    assert recipients[..|recipients|] == recipients;
    return Some(resolved);
  }

  lemma Nobody(c: Curve, outputs: seq<TxOut>, claimed: seq<bool>)
    requires |claimed| == |outputs| && forall o :: 0 <= o < |outputs| ==> !claimed[o]
    ensures Scripts(outputs) == Unclaimed(outputs, claimed) + Placeholders(c, []) && Assigned(c, outputs, [], [])
  { NothingClaimed(outputs, claimed); }
}
