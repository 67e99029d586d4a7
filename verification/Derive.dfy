/** BIP-352: the script a silent payment pays, seen by the coordinator, by a
  * lone sender holding every private key, and by the payee. */
module Derive {
  import opened Wrappers
  import opened Curve
  import opened Chain

  /** An outpoint as its 36 bytes: the hash, then the index little-endian. */
  function Serialized(coin: OutPoint): nat
  { coin.txid * 0x1_0000_0000 + LittleEndian(coin.vout) }

  function LittleEndian(v: nat): nat
  {
    (v % 0x100) * 0x100_0000 + (v / 0x100 % 0x100) * 0x1_0000
    + (v / 0x1_0000 % 0x100) * 0x100 + v / 0x100_0000 % 0x100
  }

  /** The first of the sorted serializations. */
  function Lowest(keys: seq<nat>): (low: nat)
    requires keys != []
    ensures low in keys && forall k :: k in keys ==> low <= k
  {
    if |keys| == 1 then keys[0] else
    assert forall k :: k in keys ==> k == keys[0] || k in keys[1..];
    var rest := Lowest(keys[1..]);
    if keys[0] <= rest then keys[0] else rest
  }

  function InputHash(c: Curve, coins: seq<OutPoint>, aSum: nat): Option<nat>
  {
    if coins == [] then None
    else Some(c.inputHash(Lowest(MapSeq(Serialized, coins)), c.serialize(aSum)))
  }

  function OutputScript(c: Curve, share: nat, spend: nat, inputHash: nat, k: nat): Option<Script>
  {
    if !IsSecret(c, inputHash) then None else
    var adjusted := Multiply(c, share, inputHash);
    if adjusted.None? then None else
    PayWithSecret(c, adjusted.value, spend, k)
  }

  /** `P = B_spend + t_k*G` for `t_k` hashed from the shared secret and the counter. */
  function PayWithSecret(c: Curve, secret: nat, spend: nat, k: nat): Option<Script>
  {
    var tweak := c.sharedSecret(c.serialize(secret), k);
    if tweak >= c.order then None else
    var key := Combine(c, [spend, tweak]);
    if key.None? then None else Some(P2tr(c.xonly(key.value)))
  }

  // -------------------------------------------------------------------------
  // The two other parties

  /** BIP-352 "Creating outputs" for a sender who knows `a`, the sum of every
    * input's private key: the shared secret is `input_hash*a*B_scan`. */
  function LoneSender(c: Curve, a: nat, coins: seq<OutPoint>, scan: nat, spend: nat, k: nat): Option<Script>
  {
    if !IsSecret(c, a) then None else
    var hash := InputHash(c, coins, a);
    if hash.None? || !IsSecret(c, hash.value) then None else
    PayWithSecret(c, c.mul(c.mul(hash.value, a), scan), spend, k)
  }

  /** BIP-352 "Scanning": the payee multiplies the public input sum by its own
    * scan key, and keeps the tweak. */
  function PayeeTweak(c: Curve, bScan: nat, aSum: nat, coins: seq<OutPoint>, k: nat): Option<nat>
  {
    var hash := InputHash(c, coins, aSum);
    if hash.None? then None else
    Some(c.sharedSecret(c.serialize(c.mul(c.mul(hash.value, bScan), aSum)), k))
  }

  datatype StoredOut = StoredOut(coin: OutPoint, tweak: nat, script: Script, amount: nat, height: nat)

  const MAX_MONEY_SATS: nat := 2_100_000_000_000_000

  /** `P = B_spend + t*G`, as its x coordinate. */
  function OutputKey(c: Curve, spend: nat, tweak: nat): Option<nat>
  {
    var key := Combine(c, [spend, tweak]);
    if key.None? then None else Some(c.xonly(key.value))
  }

  /** A stored coin is accepted only when its tweak reproduces its script. */
  predicate Checked(c: Curve, stored: StoredOut, spend: nat)
  {
    && stored.amount <= MAX_MONEY_SATS
    && OutputKey(c, spend, stored.tweak).Some?
    && stored.script == P2tr(OutputKey(c, spend, stored.tweak).value)
  }

  // -------------------------------------------------------------------------

  /** The sum of the shares stands exactly where `a*B_scan` stands: whoever
    * holds every share pays the script the lone sender would pay, and fails
    * where it would fail. */
  lemma SharesPayLikeALoneSender(c: Curve, a: nat, coins: seq<OutPoint>, scan: nat, spend: nat, k: nat)
    requires PrimeOrder(c) && IsPoint(c, scan) && IsSecret(c, a)
    ensures LoneSender(c, a, coins, scan, spend, k) ==
            var hash := InputHash(c, coins, a);
            if hash.None? then None else OutputScript(c, c.mul(a, scan), spend, hash.value, k)
  {
    var hash := InputHash(c, coins, a);
    if hash.Some? && IsSecret(c, hash.value) {
      ProductOfPoints(c, a, scan);
      ProductOfPoints(c, c.mul(a, scan), hash.value);
      SecretsAgree(c, hash.value, a, scan);
    }
  }

  /** `(h*a)*B == (a*B)*h == (h*b)*A`: the sender, the shares and the payee
    * reach one secret. */
  lemma SecretsAgree(c: Curve, h: nat, a: nat, b: nat)
    requires PrimeOrder(c)
    ensures c.mul(c.mul(h, a), b) == c.mul(c.mul(a, b), h)
    ensures c.mul(c.mul(h, b), a) == c.mul(c.mul(a, b), h)
  {
    MulAssociates(c, h, a, b);
    MulAssociates(c, h, b, a);
    MulCommutes(c, b, a);
    MulCommutes(c, h, c.mul(a, b));
  }

  /** The payee's own scan key re-derives the payment, and its tweak passes the
    * check a stored coin has to pass. */
  lemma PayeeRederives(c: Curve, a: nat, bScan: nat, coins: seq<OutPoint>, spend: nat, k: nat, stored: StoredOut)
    requires PrimeOrder(c)
    requires LoneSender(c, a, coins, bScan, spend, k) == Some(stored.script)
    requires PayeeTweak(c, bScan, a, coins, k) == Some(stored.tweak)
    ensures Checked(c, stored, spend) <==> stored.amount <= MAX_MONEY_SATS
  {
    SecretsAgree(c, InputHash(c, coins, a).value, a, bScan);
  }

  lemma LowestOfPermutation(left: seq<nat>, right: seq<nat>)
    requires multiset(left) == multiset(right) && left != [] && right != []
    ensures Lowest(left) == Lowest(right)
  {
    var l, r := Lowest(left), Lowest(right);
    assert l in left && l in multiset(left) && l in multiset(right) && l in right;
    assert r in right && r in multiset(right) && r in multiset(left) && r in left;
  }

  lemma InputHashOfPermutation(c: Curve, left: seq<OutPoint>, right: seq<OutPoint>, aSum: nat)
    requires multiset(left) == multiset(right)
    ensures InputHash(c, left, aSum) == InputHash(c, right, aSum)
  {
    SamePermutationLength(left, right);
    if left != [] {
      MapOfPermutation(Serialized, left, right);
      LowestOfPermutation(MapSeq(Serialized, left), MapSeq(Serialized, right));
    }
  }
}
