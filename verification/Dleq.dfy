/** BIP-374 proofs that a share was made with the key behind an input. */
module Dleq {
  import opened Wrappers
  import opened Curve

  /** The 64 bytes of a proof as its two halves: the challenge and the response. */
  datatype Proof = Proof(challenge: nat, response: nat)

  const GENERATOR: nat := 1

  /** `s*P - e*Q`, computed as `s*P + (-e)*Q`; every step refuses infinity. */
  function Commitment(c: Curve, p: nat, q: nat, proof: Proof): Option<nat>
    requires proof.challenge <= c.order
  {
    var forward := Multiply(c, p, proof.response);
    var back := Multiply(c, q, c.order - proof.challenge);
    if forward.None? || back.None? then None else Combine(c, [forward.value, back.value])
  }

  /** `R1 = s*G - e*A` and `R2 = s*B - e*C`. */
  function Commitments(c: Curve, a: nat, b: nat, share: nat, proof: Proof): Option<(nat, nat)>
  {
    if !IsSecret(c, proof.challenge) || !IsSecret(c, proof.response) then None else
    var r1 := Commitment(c, GENERATOR, a, proof);
    if r1.None? then None else
    var r2 := Commitment(c, b, share, proof);
    if r2.None? then None else Some((r1.value, r2.value))
  }

  function ChallengeHash(c: Curve, a: nat, b: nat, share: nat, r1: nat, r2: nat): nat
  {
    c.challenge(c.serialize(a), c.serialize(b), c.serialize(share), c.serialize(r1), c.serialize(r2))
  }

  /** The three public keys are points by their type. */
  predicate Verify(c: Curve, a: nat, b: nat, share: nat, proof: Proof)
  {
    var r := Commitments(c, a, b, share, proof);
    && IsPoint(c, a) && IsPoint(c, b) && IsPoint(c, share)
    && r.Some?
    && ChallengeHash(c, a, b, share, r.value.0, r.value.1) == proof.challenge
  }

  /** The idealization the protocol proofs use: an accepted share is `a*B`. */
  ghost predicate Sound(c: Curve)
  {
    forall a: nat, b: nat, share: nat, proof: Proof ::
      Verify(c, a, b, share, proof) ==> share == c.mul(a, b)
  }

  /** The idealization is not contradictory: over every prime order there is a curve
    * on which it holds. */
  lemma SoundIsPossible(c: Curve)
    requires Prime(c.order)
    ensures var ideal := c.(add := (x, y) => (x + y) % c.order, mul := (x, y) => (x * y) % c.order, serialize := x => x,
                            challenge := (a, b, share, _, _) => if share == (a * b) % c.order then 1 else 0);
      PrimeOrder(ideal) && Sound(ideal)
  { }

  /** What an honest signer with key `a` and nonce `k` sends for its share `a*B`. */
  function Prove(c: Curve, a: nat, b: nat, k: nat): Proof
  {
    var e := ChallengeHash(c, a, b, c.mul(a, b), k, c.mul(b, k));
    Proof(e, c.add(k, c.mul(a, e)))
  }

  // -------------------------------------------------------------------------

  /** `(k + a*e)*P - e*(a*P)` is `k*P`. */
  lemma HonestCommitment(c: Curve, p: nat, a: nat, k: nat, e: nat)
    requires PrimeOrder(c) && e <= c.order
    ensures var s := c.add(k, c.mul(a, e));
      c.add(c.mul(p, s), c.mul(c.mul(p, a), c.order - e)) == c.mul(p, k)
  {
    var s, q, back := c.add(k, c.mul(a, e)), c.mul(p, a), c.mul(c.mul(p, a), c.order - e);
    calc {
      c.mul(p, s);
      { MulCommutes(c, p, s); Distributes(c, k, c.mul(a, e), p); }
      c.add(c.mul(k, p), c.mul(c.mul(a, e), p));
      { MulCommutes(c, k, p); MulCommutes(c, c.mul(a, e), p); MulAssociates(c, p, a, e); }
      c.add(c.mul(p, k), c.mul(q, e));
    }
    calc {
      c.add(c.add(c.mul(p, k), c.mul(q, e)), back);
      { AddAssociates(c, c.mul(p, k), c.mul(q, e), back); Negates(c, q, e); }
      c.add(c.mul(p, k), 0);
      { MulIs(c, p, k); AddZero(c, c.mul(p, k)); }
      c.mul(p, k);
    }
  }

  lemma CommitmentExists(c: Curve, p: nat, a: nat, k: nat, proof: Proof)
    requires PrimeOrder(c) && IsPoint(c, p) && IsSecret(c, a) && IsSecret(c, k)
    requires IsSecret(c, proof.challenge) && IsSecret(c, proof.response)
    requires proof.response == c.add(k, c.mul(a, proof.challenge))
    ensures Commitment(c, p, c.mul(p, a), proof) == Some(c.mul(p, k))
  {
    var e := proof.challenge;
    ProductOfPoints(c, p, proof.response);
    ProductOfPoints(c, p, a);
    ProductOfPoints(c, c.mul(p, a), c.order - e);
    ProductOfPoints(c, p, k);
    HonestCommitment(c, p, a, k, e);
    SumOfTwo(c, c.mul(p, proof.response), c.mul(c.mul(p, a), c.order - e));
  }

  /** Completeness: an honest proof with in-range nonzero values is accepted. */
  lemma HonestProofVerifies(c: Curve, a: nat, b: nat, k: nat)
    requires PrimeOrder(c) && IsSecret(c, a) && IsPoint(c, b) && IsSecret(c, k)
    requires IsSecret(c, Prove(c, a, b, k).challenge) && Prove(c, a, b, k).response != 0
    ensures Verify(c, a, b, c.mul(a, b), Prove(c, a, b, k))
  {
    var proof := Prove(c, a, b, k);
    AddIs(c, k, c.mul(a, proof.challenge));
    ProductOfPoints(c, a, b);
    MulCommutes(c, a, b);
    MulOne(c, a);
    MulOne(c, k);
    CommitmentExists(c, GENERATOR, a, k, proof);
    CommitmentExists(c, b, a, k, proof);
  }

  /** The difference of two numbers below the order, modulo the order. */
  function Difference(c: Curve, x: nat, y: nat): nat
    requires y < c.order
  { if x >= y then x - y else x + c.order - y }

  /** A commitment reached with two challenges fixes `(e-e')*Q` as `(s-s')*P`. */
  lemma TwoChallenges(c: Curve, p: nat, q: nat, one: Proof, two: Proof)
    requires PrimeOrder(c) && IsSecret(c, one.challenge) && IsSecret(c, two.challenge)
    requires IsSecret(c, one.response) && IsSecret(c, two.response)
    requires Commitment(c, p, q, one).Some? && Commitment(c, p, q, one) == Commitment(c, p, q, two)
    ensures c.mul(q, Difference(c, one.challenge, two.challenge)) == c.mul(p, Difference(c, one.response, two.response))
  {
    var n, e, e', s, s' := c.order, one.challenge, two.challenge, one.response, two.response;
    CommitmentIs(c, p, q, one);
    CommitmentIs(c, p, q, two);
    ModDifference(s * p - e * q, s' * p - e' * q, n);
    assert (s * p - e * q) - (s' * p - e' * q) == (s - s') * p - (e - e') * q by {
      assert (s - s') * p == s * p - s' * p;
      assert (e - e') * q == e * q - e' * q;
    }
    ModDifference((s - s') * p, (e - e') * q, n);
    DifferenceTimes(c, p, s, s');
    DifferenceTimes(c, q, e, e');
  }

  lemma DifferenceTimes(c: Curve, p: nat, x: nat, y: nat)
    requires PrimeOrder(c) && x < c.order && y < c.order
    ensures c.mul(p, Difference(c, x, y)) == ((x - y) * p) % c.order
  {
    var d := Difference(c, x, y);
    MulIs(c, p, d);
    assert p * d == d * p;
    if x < y {
      assert d * p == (x - y) * p + p * c.order;
      ModShift((x - y) * p, p, c.order);
    }
  }

  lemma AddProducts(c: Curve, p: nat, s: nat, q: nat, t: nat)
    requires PrimeOrder(c)
    ensures c.add(c.mul(p, s), c.mul(q, t)) == (p * s + q * t) % c.order
  {
    var x, y := p * s, q * t;
    MulIs(c, p, s);
    MulIs(c, q, t);
    AddIs(c, x, y);
    AddReduced(c, x, y);
  }

  lemma AddReduced(c: Curve, x: nat, y: nat)
    requires PrimeOrder(c)
    ensures c.add(x % c.order, y % c.order) == (x + y) % c.order
  {
    var r := y % c.order;
    AddIs(c, x % c.order, r);
    ModAdd(x, r, c.order);
    ModAdd(y, x, c.order);
    assert r + x == x + r && y + x == x + y;
  }

  lemma CommitmentIs(c: Curve, p: nat, q: nat, proof: Proof)
    requires PrimeOrder(c) && proof.challenge <= c.order && Commitment(c, p, q, proof).Some?
    ensures Commitment(c, p, q, proof).value == (proof.response * p - proof.challenge * q) % c.order
  {
    var n, e, s := c.order, proof.challenge, proof.response;
    MulIs(c, p, s);
    SumOfTwo(c, c.mul(p, s), c.mul(q, n - e));
    AddProducts(c, p, s, q, n - e);
    CommitmentExpands(p, q, e, s, n);
    ModShift(s * p - e * q, q, n);
  }

  lemma CommitmentExpands(p: int, q: int, e: int, s: int, n: int)
    ensures q * (n - e) + p * s == (s * p - e * q) + q * n
  { }

  /** Special soundness: two accepted transcripts over the same commitments
    * with different challenges, which takes a second oracle `forked`, yield
    * the key (`w` extracts it), and the share is that key times the base. */
  lemma SpecialSoundness(c: Curve, forked: Curve, a: nat, b: nat, share: nat, one: Proof, two: Proof)
    returns (w: nat)
    requires PrimeOrder(c) && forked == c.(challenge := forked.challenge)
    requires Verify(c, a, b, share, one) && Verify(forked, a, b, share, two)
    requires Commitments(c, a, b, share, one) == Commitments(c, a, b, share, two)
    requires one.challenge != two.challenge
    ensures c.mul(w, Difference(c, one.challenge, two.challenge)) == 1
    ensures a == c.mul(w, Difference(c, one.response, two.response))
    ensures share == c.mul(a, b)
  {
    var de, ds := Difference(c, one.challenge, two.challenge), Difference(c, one.response, two.response);
    TwoChallenges(c, GENERATOR, a, one, two);
    TwoChallenges(c, b, share, one, two);
    w := Inverse(c, de);
    MulIs(c, 1, ds);
    assert ds < c.order;
    MulOne(c, ds);
    Recover(c, w, de, a, ds);
    Recover(c, w, de, share, c.mul(b, ds));
    assert c.mul(w, c.mul(b, ds)) == c.mul(a, b) by {
      MulCommutes(c, b, ds);
      MulAssociates(c, w, ds, b);
    }
  }

  /** `w` undoes a multiplication by `de`. */
  lemma Recover(c: Curve, w: nat, de: nat, x: nat, y: nat)
    requires PrimeOrder(c) && x < c.order && c.mul(w, de) == 1 && c.mul(x, de) == y
    ensures x == c.mul(w, y)
  {
    calc {
      c.mul(w, c.mul(x, de));
      { MulCommutes(c, x, de); MulAssociates(c, w, de, x); }
      c.mul(1, x);
      { MulOne(c, x); }
      x;
    }
  }

  /** So a share that is not `a*B` leaves at most one acceptable challenge for
    * each pair of commitments: a cheat needs the hash to hit that one. */
  lemma OneChallengeForAWrongShare(c: Curve, forked: Curve, a: nat, b: nat, share: nat, one: Proof, two: Proof)
    requires PrimeOrder(c) && forked == c.(challenge := forked.challenge)
    requires share != c.mul(a, b)
    requires Verify(c, a, b, share, one) && Verify(forked, a, b, share, two)
    requires Commitments(c, a, b, share, one) == Commitments(c, a, b, share, two)
    ensures one.challenge == two.challenge
  {
    if one.challenge != two.challenge {
      var _ := SpecialSoundness(c, forked, a, b, share, one, two);
      assert false;
    }
  }
}
