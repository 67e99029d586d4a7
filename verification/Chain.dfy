/** Coins, scripts, transactions, and what the model is told about hashing and
  * signature checking. */
module Chain {
  import opened Curve

  datatype OutPoint = OutPoint(txid: nat, vout: nat)

  /** An output script by the type a shared send tells apart. `Plain` holds the
    * bytes of every script that is neither P2WPKH nor P2TR. */
  datatype Script =
    | P2wpkh(program: nat)
    | P2tr(x: nat)
    | Plain(bytes: seq<nat>)

  const NO_SCRIPT := Plain([])

  function ScriptLength(s: Script): nat
  {
    match s
    case P2wpkh(_) => 22
    case P2tr(_) => 34
    case Plain(bytes) => |bytes|
  }

  datatype TxOut = TxOut(value: nat, script: Script)

  datatype TxIn = TxIn(coin: OutPoint, sequence: nat)

  datatype Transaction = Transaction(version: int, lockTime: nat, inputs: seq<TxIn>, outputs: seq<TxOut>)

  datatype PubKey = PubKey(point: nat, compressed: bool)

  datatype EcdsaSignature = EcdsaSignature(bytes: nat, sighash: nat)

  datatype TaprootSignature = TaprootSignature(bytes: nat, sighash: nat)

  const SIGHASH_DEFAULT := 0
  const SIGHASH_ALL := 1

  /** The world outside: the curve, two hashes, and the two signature checks.
    *
    * `ecdsa` is asked about (transaction, input, script, amount, key, bytes)
    * and `schnorr` about (transaction, input, prevouts, type, key, bytes). */
  datatype Env = Env(
    curve: Curve,
    hash160: nat -> nat,
    txid: Transaction -> nat,
    ecdsa: (Transaction, nat, Script, nat, nat, nat) -> bool,
    schnorr: (Transaction, nat, seq<TxOut>, nat, nat, nat) -> bool
  )

  function MapSeq<T, U>(f: T -> U, s: seq<T>): (r: seq<U>)
    ensures |r| == |s| && forall i :: 0 <= i < |s| ==> r[i] == f(s[i])
  {
    seq(|s|, i requires 0 <= i < |s| => f(s[i]))
  }

  function Without<T>(s: seq<T>, i: nat): seq<T>
    requires i < |s|
  { s[..i] + s[i + 1..] }

  lemma MapWithout<T, U>(f: T -> U, s: seq<T>, i: nat)
    requires i < |s|
    ensures multiset(MapSeq(f, s)) == multiset(MapSeq(f, Without(s, i))) + multiset{f(s[i])}
  {
    var mapped := MapSeq(f, s);
    assert MapSeq(f, Without(s, i)) == mapped[..i] + mapped[i + 1..];
    assert mapped == mapped[..i] + [mapped[i]] + mapped[i + 1..];
  }

  /** Mapping a permuted list permutes the mapped list. */
  lemma {:induction false} MapOfPermutation<T, U>(f: T -> U, left: seq<T>, right: seq<T>)
    requires multiset(left) == multiset(right)
    ensures multiset(MapSeq(f, left)) == multiset(MapSeq(f, right))
  {
    SamePermutationLength(left, right);
    if left != [] {
      assert left[0] in multiset(right);
      var i :| 0 <= i < |right| && right[i] == left[0];
      MultisetWithout(left, 0);
      MultisetWithout(right, i);
      MapOfPermutation(f, Without(left, 0), Without(right, i));
      MapWithout(f, left, 0);
      MapWithout(f, right, i);
    }
  }

  lemma SamePermutationLength<T>(left: seq<T>, right: seq<T>)
    requires multiset(left) == multiset(right)
    ensures |left| == |right|
  { assert |multiset(left)| == |left| && |multiset(right)| == |right|; }
}
