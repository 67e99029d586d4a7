/** What the derived scripts mean: they are the lone sender's, the payee finds
  * them, and neither the order of the inputs nor later shares move them. */
module Agreement {
  import opened Wrappers
  import opened Curve
  import opened Chain
  import opened Derive
  import opened PsbtV2
  import opened Shares
  import Dleq

  /** Every share for this output's scan key is its input key times the scan key. */
  ghost predicate HonestShares(e: Env, p: Psbt, o: nat)
    requires Completed(p, o)
  {
    var scan := p.outputs[o].info.value.scan;
    && AllKeyed(e, p.inputs)
    && forall i :: 0 <= i < |p.inputs| ==>
        p.inputs[i].held.shares[scan] == e.curve.mul(InputKey(e, p.inputs[i].fact).value, scan)
  }

  /** A PSBT that passed its checks holds honest shares, if a proof cannot lie. */
  lemma CheckedSharesAreHonest(e: Env, p: Psbt, o: nat)
    requires Dleq.Sound(e.curve) && AllSharesOk(e, p) && Completed(p, o)
    ensures HonestShares(e, p, o)
  { }

  /** The script derived from the shares is the one a lone sender holding the sum
    * of the private keys would pay to this recipient, and it exists exactly when
    * that one does. */
  lemma SharedScriptIsTheLoneSenders(e: Env, p: Psbt, o: nat)
    requires PrimeOrder(e.curve) && RecipientsOk(e.curve, p.outputs)
    requires Completed(p, o) && HonestShares(e, p, o)
    ensures ScriptAt(e, p, o) ==
            LoneSender(e.curve, Sum(e.curve, KeysOf(e, p.inputs)), CoinsOf(p.inputs),
                       p.outputs[o].info.value.scan, p.outputs[o].info.value.spend, Rank(e.curve, p.outputs, o))
  {
    var c, info := e.curve, p.outputs[o].info.value;
    var keys, parts := KeysOf(e, p.inputs), SharesFor(p.inputs, info.scan);
    SumOfShares(c, keys, parts, info.scan);
    var a := Sum(c, keys);
    SumInRange(c, keys);
    if a != 0 {
      ProductOfPoints(c, a, info.scan);
      SharesPayLikeALoneSender(c, a, CoinsOf(p.inputs), info.scan, info.spend, Rank(c, p.outputs, o));
    }
  }

  /** So the payee, who knows only its scan key, the public keys and the coins,
    * finds a tweak that the spending side accepts for that script. */
  lemma PayeeFindsTheOutput(e: Env, p: Psbt, o: nat, stored: StoredOut)
    requires PrimeOrder(e.curve) && RecipientsOk(e.curve, p.outputs)
    requires Completed(p, o) && HonestShares(e, p, o)
    requires ScriptAt(e, p, o) == Some(stored.script) && stored.amount <= MAX_MONEY_SATS
    requires PayeeTweak(e.curve, p.outputs[o].info.value.scan, Sum(e.curve, KeysOf(e, p.inputs)),
                        CoinsOf(p.inputs), Rank(e.curve, p.outputs, o)) == Some(stored.tweak)
    ensures Checked(e.curve, stored, p.outputs[o].info.value.spend)
  {
    SharedScriptIsTheLoneSenders(e, p, o);
    PayeeRederives(e.curve, Sum(e.curve, KeysOf(e, p.inputs)), p.outputs[o].info.value.scan, CoinsOf(p.inputs),
                   p.outputs[o].info.value.spend, Rank(e.curve, p.outputs, o), stored);
  }

  // -------------------------------------------------------------------------

  lemma SameMembers<T>(left: seq<T>, right: seq<T>)
    requires multiset(left) == multiset(right)
    ensures forall x :: x in left <==> x in right
  {
    forall x ensures x in left <==> x in right {
      assert x in left <==> x in multiset(left);
      assert x in right <==> x in multiset(right);
    }
  }

  lemma SameSum(c: Curve, f: Input -> nat, left: seq<Input>, right: seq<Input>)
    requires PrimeOrder(c) && multiset(left) == multiset(right)
    ensures Combine(c, MapSeq(f, left)) == Combine(c, MapSeq(f, right))
  {
    MapOfPermutation(f, left, right);
    SumOfPermutation(c, MapSeq(f, left), MapSeq(f, right));
  }

  lemma SameComplete(left: seq<Input>, right: seq<Input>, scan: nat)
    requires multiset(left) == multiset(right) && CompleteFor(left, scan)
    ensures CompleteFor(right, scan)
  {
    SameMembers(left, right);
    forall i | 0 <= i < |right| ensures scan in right[i].held.shares {
      assert right[i] in left;
    }
  }

  lemma SameKeyed(e: Env, left: seq<Input>, right: seq<Input>)
    requires multiset(left) == multiset(right) && AllKeyed(e, left)
    ensures AllKeyed(e, right)
  {
    SameMembers(left, right);
    forall i | 0 <= i < |right| ensures InputKey(e, right[i].fact).Some? {
      assert right[i] in left;
    }
  }

  lemma SameHash(e: Env, left: seq<Input>, right: seq<Input>)
    requires PrimeOrder(e.curve) && multiset(left) == multiset(right)
    ensures HashOf(e, left) == HashOf(e, right)
  {
    if AllKeyed(e, left) { SameKeyed(e, left, right); }
    if AllKeyed(e, right) { SameKeyed(e, right, left); }
    SameSum(e.curve, KeyOf(e), left, right);
    var coin := (i: Input) => i.fact.coin;
    MapOfPermutation(coin, left, right);
    assert CoinsOf(left) == MapSeq(coin, left) && CoinsOf(right) == MapSeq(coin, right);
    var aSum := Combine(e.curve, KeysOf(e, left));
    if aSum.Some? { InputHashOfPermutation(e.curve, CoinsOf(left), CoinsOf(right), aSum.value); }
  }

  /** Listing the inputs in another order derives exactly the same scripts. */
  lemma InputOrderDoesNotMatter(e: Env, p: Psbt, q: Psbt)
    requires PrimeOrder(e.curve) && p.outputs == q.outputs && multiset(p.inputs) == multiset(q.inputs)
    ensures Derivable(e, p) <==> Derivable(e, q)
    ensures Derivable(e, p) ==> Derived(e, p) == Derived(e, q)
  {
    forall o: nat | o < |p.outputs| && p.outputs[o].info.Some?
      ensures Completed(p, o) == Completed(q, o) && ScriptAt(e, p, o) == ScriptAt(e, q, o)
    {
      var scan := p.outputs[o].info.value.scan;
      if CompleteFor(p.inputs, scan) { SameComplete(p.inputs, q.inputs, scan); }
      if CompleteFor(q.inputs, scan) { SameComplete(q.inputs, p.inputs, scan); }
      SameHash(e, p.inputs, q.inputs);
      SameSum(e.curve, ShareOf(scan), p.inputs, q.inputs);
    }
  }

  // -------------------------------------------------------------------------

  /** `q` states the same coins and recipients as `p` and holds at least its shares. */
  ghost predicate SharesGrow(p: Psbt, q: Psbt)
  {
    && |p.inputs| == |q.inputs| && |p.outputs| == |q.outputs|
    && (forall i :: 0 <= i < |p.inputs| ==> p.inputs[i].fact == q.inputs[i].fact)
    && (forall o :: 0 <= o < |p.outputs| ==> p.outputs[o].info == q.outputs[o].info)
    && (forall i, scan :: 0 <= i < |p.inputs| && scan in p.inputs[i].held.shares ==>
          scan in q.inputs[i].held.shares && q.inputs[i].held.shares[scan] == p.inputs[i].held.shares[scan])
  }

  lemma SameFactsSameHash(e: Env, p: seq<Input>, q: seq<Input>)
    requires |p| == |q| && forall i :: 0 <= i < |p| ==> p[i].fact == q[i].fact
    ensures HashOf(e, p) == HashOf(e, q)
  {
    assert AllKeyed(e, p) == AllKeyed(e, q) by {
      if AllKeyed(e, p) { assert forall i :: 0 <= i < |q| ==> InputKey(e, p[i].fact).Some?; }
      if AllKeyed(e, q) { assert forall i :: 0 <= i < |q| ==> InputKey(e, q[i].fact).Some?; }
    }
    assert KeysOf(e, p) == KeysOf(e, q);
    assert CoinsOf(p) == CoinsOf(q);
  }

  /** A script once derived is derived the same way from every later state. */
  lemma LaterSharesKeepTheScript(e: Env, p: Psbt, q: Psbt, o: nat)
    requires SharesGrow(p, q) && Completed(p, o)
    ensures Completed(q, o) && ScriptAt(e, q, o) == ScriptAt(e, p, o)
  {
    var scan := p.outputs[o].info.value.scan;
    SameFactsSameHash(e, p.inputs, q.inputs);
    assert SharesFor(p.inputs, scan) == SharesFor(q.inputs, scan);
    SameRank(e.curve, p.outputs, q.outputs, o);
  }

  lemma SameRank(c: Curve, p: seq<Output>, q: seq<Output>, o: nat)
    requires |p| == |q| && o < |p| && p[o].info.Some?
    requires forall j :: 0 <= j < |p| ==> p[j].info == q[j].info
    ensures Rank(c, p, o) == Rank(c, q, o)
  {
    assert (set j | 0 <= j < |p| && CountsBefore(c, p, j, o)) == (set j | 0 <= j < |q| && CountsBefore(c, q, j, o));
  }
}
