/** The curve as a group of prime order.
  *
  * A point is written as its discrete logarithm to the generator: `P` stands
  * for `P*G` and the generator is one. Adding points and multiplying a point
  * by a scalar are then addition and multiplication modulo the order, which
  * `PrimeOrder` says of the two operations. Zero is the point at infinity,
  * which the curve library can neither hold nor return. Of hashes and
  * serializations nothing is known but their type.
  */
module Curve {
  import opened Wrappers

  datatype Curve = Curve(
    order: nat,
    add: (nat, nat) -> nat,
    mul: (nat, nat) -> nat,
    serialize: nat -> nat,            // 33 bytes, read as a big-endian number
    xonly: nat -> nat,                // the x coordinate
    lift: nat -> nat,                 // the even-y point with that x, 0 if none
    challenge: (nat, nat, nat, nat, nat) -> nat,  // tagged BIP0374/challenge
    inputHash: (nat, nat) -> nat,     // tagged BIP0352/Inputs
    sharedSecret: (nat, nat) -> nat   // tagged BIP0352/SharedSecret
  )

  ghost predicate Prime(n: nat) {
    n >= 2 && forall d :: 2 <= d < n ==> n % d != 0
  }

  /** Always true: naming a pair is what makes `PrimeOrder` speak about it. */
  ghost predicate Named(a: nat, b: nat) { true }

  ghost predicate PrimeOrder(c: Curve) {
    && Prime(c.order)
    && forall a: nat, b: nat {:trigger Named(a, b)} :: Named(a, b) ==>
         c.add(a, b) == (a + b) % c.order && c.mul(a, b) == (a * b) % c.order
  }

  predicate IsPoint(c: Curve, p: nat) { 0 < p < c.order }

  /** What `SecretKey::from_slice` accepts. */
  predicate IsSecret(c: Curve, s: nat) { 0 < s < c.order }

  function Sum(c: Curve, points: seq<nat>): nat
  { if points == [] then 0 else c.add(Sum(c, points[..|points| - 1]), points[|points| - 1]) }

  /** `combine_keys`: the sum of a list of points, refused when it is infinity. */
  function Combine(c: Curve, points: seq<nat>): Option<nat>
  { if Sum(c, points) == 0 then None else Some(Sum(c, points)) }

  /** `mul_tweak`, refused when the result is infinity. */
  function Multiply(c: Curve, p: nat, s: nat): Option<nat>
  { if c.mul(p, s) == 0 then None else Some(c.mul(p, s)) }

  // -------------------------------------------------------------------------
  // Congruence

  lemma ModShift(x: int, k: int, n: nat)
    requires n > 0
    ensures (x + k * n) % n == x % n
  {
    var q, r := x / n, x % n;
    assert x + k * n == (q + k) * n + r;
    DivUnique(x + k * n, q + k, r, n);
  }

  lemma DivUnique(x: int, q: int, r: int, n: nat)
    requires n > 0 && 0 <= r < n && x == q * n + r
    ensures x / n == q && x % n == r
  {
    var q', r' := x / n, x % n;
    assert (q - q') * n == r' - r;
    MultipleBound(q - q', n);
  }

  lemma MultipleBound(d: int, n: nat)
    ensures d >= 1 ==> d * n >= n
    ensures d <= -1 ==> d * n + n <= 0
  { }

  /** A number and its remainder can stand for each other in a product and a sum. */
  lemma ModMulAdd(a: int, b: int, x: int, n: nat)
    requires n > 0
    ensures ((a % n) * b + x) % n == (a * b + x) % n
  {
    var q := a / n;
    assert a == q * n + a % n;
    assert a * b + x == ((a % n) * b + x) + (q * b) * n by {
      assert a * b == (q * n) * b + (a % n) * b;
      assert (q * n) * b == (q * b) * n;
    }
    ModShift((a % n) * b + x, q * b, n);
  }

  lemma ModAdd(a: int, x: int, n: nat)
    requires n > 0
    ensures (a % n + x) % n == (a + x) % n
  { ModMulAdd(a, 1, x, n); }

  lemma ModMul(a: int, b: int, n: nat)
    requires n > 0
    ensures ((a % n) * b) % n == (a * b) % n
  { ModMulAdd(a, b, 0, n); }

  lemma ModDifference(a: int, b: int, n: nat)
    requires n > 0
    ensures a % n == b % n <==> (a - b) % n == 0
  {
    var k := a / n - b / n;
    assert a - b == (a % n - b % n) + k * n;
    ModShift(a % n - b % n, k, n);
    if (a - b) % n == 0 && a % n != b % n {
      var r := if a % n > b % n then a % n - b % n else a % n - b % n + n;
      ModShift(a % n - b % n, 1, n);
      DivUnique(r, 0, r, n);
      assert false;
    }
  }

  // -------------------------------------------------------------------------
  // A prime order has inverses, so a product vanishes only with a factor

  /** Bezout coefficients by the extended Euclidean algorithm. */
  function Bezout(a: nat, b: nat): (r: (int, int, nat))
    requires a > 0 || b > 0
    ensures r.0 * a + r.1 * b == r.2
    ensures r.2 > 0 && a % r.2 == 0 && b % r.2 == 0
    decreases b
  {
    if b == 0 then (1, 0, a)
    else
      var (x, y, g) := Bezout(b, a % b);
      BezoutStep(a, b, x, y, g);
      (y, x - y * (a / b), g)
  }

  lemma BezoutStep(a: nat, b: nat, x: int, y: int, g: nat)
    requires b > 0 && g > 0 && x * b + y * (a % b) == g
    requires b % g == 0 && (a % b) % g == 0
    ensures y * a + (x - y * (a / b)) * b == g
    ensures a % g == 0
  {
    var q := a / b;
    assert a == q * b + a % b;
    assert y * a == y * (q * b) + y * (a % b);
    assert (x - y * q) * b == x * b - (y * q) * b;
    assert y * (q * b) == (y * q) * b;
    var u, v := b / g, (a % b) / g;
    assert a == (q * u + v) * g by {
      assert b == u * g && a % b == v * g;
      assert q * (u * g) == (q * u) * g;
      assert (q * u + v) * g == (q * u) * g + v * g;
    }
    DivUnique(a, q * u + v, 0, g);
  }

  /** A scalar that does not vanish modulo a prime has an inverse. */
  lemma InverseExists(x: nat, n: nat) returns (w: nat)
    requires Prime(n) && x % n != 0
    ensures 0 <= w < n && (w * x) % n == 1
  {
    var (u, v, g) := Bezout(x % n, n);
    CommonDivisor(x % n, n, g);
    w := u % n;
    calc {
      (w * x) % n;
      { ModMul(u, x, n); }
      (u * x) % n;
      { assert u * x == x * u; ModMul(x, u, n); }
      ((x % n) * u) % n;
      { assert (x % n) * u == 1 + (-v) * n by { assert (-v) * n == -(v * n); assert u * (x % n) == (x % n) * u; }
        ModShift(1, -v, n); }
      1 % n;
      { DivUnique(1, 0, 1, n); }
      1;
    }
  }

  lemma CommonDivisor(r: nat, n: nat, g: nat)
    requires Prime(n) && 0 < r < n && g > 0 && r % g == 0 && n % g == 0
    ensures g == 1
  { }

  /** Euclid's lemma. */
  lemma NoZeroDivisors(a: int, b: int, n: nat)
    requires Prime(n) && (a * b) % n == 0
    ensures a % n == 0 || b % n == 0
  {
    if a % n != 0 {
      var r := a % n;
      var w := InverseExists(r, n);
      ModMul(a, b, n);
      CancelFactor(w, r, b, n);
    }
  }

  lemma CancelFactor(w: nat, r: nat, b: int, n: nat)
    requires n > 1 && (w * r) % n == 1 && (r * b) % n == 0
    ensures b % n == 0
  {
    calc {
      b % n;
      { assert 1 * b == b; ModMul(w * r, b, n); }
      ((w * r) * b) % n;
      { assert (w * r) * b == (r * b) * w; ModMul(r * b, w, n); }
      (0 * w) % n;
      { assert 0 * w == 0; }
      0;
    }
  }

  // -------------------------------------------------------------------------
  // The laws of a field of prime order

  lemma InRange(x: int, n: nat)
    requires 0 <= x < n
    ensures x % n == x
  { }

  lemma AddIs(c: Curve, a: nat, b: nat)
    requires PrimeOrder(c)
    ensures c.add(a, b) == (a + b) % c.order && c.add(a, b) < c.order
  { assert Named(a, b); }

  lemma MulIs(c: Curve, a: nat, b: nat)
    requires PrimeOrder(c)
    ensures c.mul(a, b) == (a * b) % c.order && c.mul(a, b) < c.order
  { assert Named(a, b); }

  lemma AddZero(c: Curve, a: nat)
    requires PrimeOrder(c) && a < c.order
    ensures c.add(a, 0) == a && c.add(0, a) == a
  {
    AddIs(c, a, 0);
    AddIs(c, 0, a);
    InRange(a, c.order);
  }

  lemma AddCommutes(c: Curve, a: nat, b: nat)
    requires PrimeOrder(c)
    ensures c.add(a, b) == c.add(b, a)
  {
    AddIs(c, a, b);
    AddIs(c, b, a);
  }

  lemma AddThree(c: Curve, x: nat, y: nat, z: nat)
    requires PrimeOrder(c)
    ensures c.add(c.add(x, y), z) == (x + y + z) % c.order
  {
    var u := c.add(x, y);
    AddIs(c, x, y);
    AddIs(c, u, z);
    ModAdd(x + y, z, c.order);
  }

  lemma AddAssociates(c: Curve, x: nat, y: nat, z: nat)
    requires PrimeOrder(c)
    ensures c.add(c.add(x, y), z) == c.add(x, c.add(y, z))
  {
    AddThree(c, x, y, z);
    AddThree(c, y, z, x);
    AddCommutes(c, x, c.add(y, z));
    assert x + y + z == y + z + x;
  }

  lemma MulCommutes(c: Curve, a: nat, b: nat)
    requires PrimeOrder(c)
    ensures c.mul(a, b) == c.mul(b, a)
  {
    MulIs(c, a, b);
    MulIs(c, b, a);
  }

  lemma MulAssociates(c: Curve, x: nat, y: nat, z: nat)
    requires PrimeOrder(c)
    ensures c.mul(c.mul(x, y), z) == c.mul(x, c.mul(y, z))
  {
    MulIs(c, x, y);
    MulIs(c, y, z);
    MulIs(c, c.mul(x, y), z);
    MulIs(c, x, c.mul(y, z));
    MulCommutes(c, x, c.mul(y, z));
    MulIs(c, c.mul(y, z), x);
    ModMul(x * y, z, c.order);
    ModMul(y * z, x, c.order);
    Rearrange(x, y, z);
  }

  lemma Rearrange(x: int, y: int, z: int)
    ensures (x * y) * z == (y * z) * x
  { }

  lemma Distributes(c: Curve, x: nat, y: nat, b: nat)
    requires PrimeOrder(c)
    ensures c.mul(c.add(x, y), b) == c.add(c.mul(x, b), c.mul(y, b))
  {
    AddIs(c, x, y);
    MulIs(c, c.add(x, y), b);
    MulIs(c, x, b);
    MulIs(c, y, b);
    AddIs(c, c.mul(x, b), c.mul(y, b));
    ModMul(x + y, b, c.order);
    ModAdd(x * b, c.mul(y, b), c.order);
    ModAdd(y * b, x * b, c.order);
    assert (x + y) * b == x * b + y * b;
  }

  lemma MulZero(c: Curve, b: nat)
    requires PrimeOrder(c)
    ensures c.mul(0, b) == 0
  {
    MulIs(c, 0, b);
    InRange(0, c.order);
  }

  lemma MulOne(c: Curve, b: nat)
    requires PrimeOrder(c) && b < c.order
    ensures c.mul(1, b) == b && c.mul(b, 1) == b
  {
    MulIs(c, 1, b);
    MulIs(c, b, 1);
    InRange(b, c.order);
  }

  /** `e*x + (-e)*x` vanishes, with `-e` written as `order - e`. */
  lemma Negates(c: Curve, x: nat, e: nat)
    requires PrimeOrder(c) && e <= c.order
    ensures c.add(c.mul(x, e), c.mul(x, c.order - e)) == 0
  {
    var n := c.order;
    MulIs(c, x, e);
    MulIs(c, x, n - e);
    AddIs(c, c.mul(x, e), c.mul(x, n - e));
    ModAdd(x * e, c.mul(x, n - e), n);
    ModAdd(x * (n - e), x * e, n);
    assert x * e + x * (n - e) == 0 + x * n;
    ModShift(0, x, n);
    InRange(0, n);
  }

  lemma ProductOfPoints(c: Curve, a: nat, b: nat)
    requires PrimeOrder(c) && IsPoint(c, a) && IsPoint(c, b)
    ensures IsPoint(c, c.mul(a, b))
  {
    MulIs(c, a, b);
    if (a * b) % c.order == 0 {
      NoZeroDivisors(a, b, c.order);
      InRange(a, c.order);
      InRange(b, c.order);
      assert false;
    }
  }

  /** The modular inverse of a scalar. */
  lemma Inverse(c: Curve, x: nat) returns (w: nat)
    requires PrimeOrder(c) && IsSecret(c, x)
    ensures w < c.order && c.mul(w, x) == 1
  {
    InRange(x, c.order);
    w := InverseExists(x, c.order);
    MulIs(c, w, x);
  }

  // -------------------------------------------------------------------------
  // Sums of points

  lemma SumInRange(c: Curve, points: seq<nat>)
    requires PrimeOrder(c)
    ensures Sum(c, points) < c.order
  {
    if points != [] { AddIs(c, Sum(c, points[..|points| - 1]), points[|points| - 1]); }
  }

  lemma SumAppend(c: Curve, front: seq<nat>, x: nat)
    ensures Sum(c, front + [x]) == c.add(Sum(c, front), x)
  { assert (front + [x])[..|front|] == front; }

  lemma SumOfTwo(c: Curve, x: nat, y: nat)
    requires PrimeOrder(c) && x < c.order
    ensures Sum(c, [x, y]) == c.add(x, y)
  {
    SumAppend(c, [x], y);
    SumAppend(c, [], x);
    assert [] + [x] == [x] && [x] + [y] == [x, y];
    AddZero(c, x);
  }

  lemma SplitAt<T>(s: seq<T>, i: nat)
    requires i < |s|
    ensures s == (s[..i] + [s[i]]) + s[i + 1..]
  {
    var joined := (s[..i] + [s[i]]) + s[i + 1..];
    assert |joined| == |s|;
    forall k | 0 <= k < |s| ensures joined[k] == s[k] {
      if k > i { assert joined[k] == s[i + 1..][k - (i + 1)]; }
    }
  }

  lemma {:induction false} SumSplit(c: Curve, left: seq<nat>, right: seq<nat>)
    requires PrimeOrder(c)
    ensures Sum(c, left + right) == c.add(Sum(c, left), Sum(c, right))
  {
    if right == [] {
      assert left + right == left;
      SumInRange(c, left);
      AddZero(c, Sum(c, left));
    } else {
      var most, last := right[..|right| - 1], right[|right| - 1];
      assert (left + right)[..|left + right| - 1] == left + most;
      SumSplit(c, left, most);
      AddAssociates(c, Sum(c, left), Sum(c, most), last);
    }
  }

  lemma SumInsert(c: Curve, front: seq<nat>, x: nat, back: seq<nat>)
    requires PrimeOrder(c)
    ensures Sum(c, (front + [x]) + back) == c.add(Sum(c, front + back), x)
  {
    var f, b := Sum(c, front), Sum(c, back);
    SumSplit(c, front + [x], back);
    SumSplit(c, front, back);
    SumAppend(c, front, x);
    AddAssociates(c, f, x, b);
    AddCommutes(c, x, b);
    AddAssociates(c, f, b, x);
  }

  lemma MultisetWithout<T>(s: seq<T>, i: nat)
    requires i < |s|
    ensures multiset(s[..i] + s[i + 1..]) == multiset(s) - multiset{s[i]}
  {
    SplitAt(s, i);
  }

  /** A sum depends on which points there are, never on their order. */
  lemma {:induction false} SumOfPermutation(c: Curve, left: seq<nat>, right: seq<nat>)
    requires PrimeOrder(c) && multiset(left) == multiset(right)
    ensures Sum(c, left) == Sum(c, right)
  {
    assert |multiset(left)| == |left| && |multiset(right)| == |right|;
    if left != [] {
      var last := |left| - 1;
      assert left[last] in multiset(right);
      var i :| 0 <= i < |right| && right[i] == left[last];
      MultisetWithout(left, last);
      MultisetWithout(right, i);
      assert left[..last] + left[last + 1..] == left[..last];
      SumOfPermutation(c, left[..last], right[..i] + right[i + 1..]);
      SumInsert(c, right[..i], right[i], right[i + 1..]);
      SplitAt(right, i);
    }
  }

  /** Summing the shares `a_i*B` gives the share of the summed key. */
  lemma {:induction false} SumOfShares(c: Curve, keys: seq<nat>, shares: seq<nat>, b: nat)
    requires PrimeOrder(c) && |keys| == |shares|
    requires forall i :: 0 <= i < |keys| ==> shares[i] == c.mul(keys[i], b)
    ensures Sum(c, shares) == c.mul(Sum(c, keys), b)
  {
    if keys == [] {
      MulZero(c, b);
    } else {
      var last := |keys| - 1;
      SumOfShares(c, keys[..last], shares[..last], b);
      Distributes(c, Sum(c, keys[..last]), keys[last], b);
    }
  }

  // -------------------------------------------------------------------------
  // The model is not empty: the integers modulo any prime are such a curve

  lemma IntegersModuloAPrime(c: Curve)
    requires Prime(c.order)
    ensures PrimeOrder(c.(add := (a, b) => (a + b) % c.order, mul := (a, b) => (a * b) % c.order))
  { }
}
