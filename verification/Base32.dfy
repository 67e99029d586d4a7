/** Regrouping the 5-bit values of an address into bytes, with an accumulator that
  * drops its high bits. */
module Base32 {
  import opened Wrappers
  import opened Words

  type Group = x: nat | x < 32

  // -------------------------------------------------------------------------
  // The same bits, read as one number

  function GroupsValue(groups: seq<Group>): nat
  { if groups == [] then 0 else 32 * GroupsValue(groups[..|groups| - 1]) + groups[|groups| - 1] }

  function Pow2(n: nat): (p: nat)
    ensures p > 0
  { if n == 0 then 1 else 2 * Pow2(n - 1) }

  /** The groups hold exactly these bytes and fewer than five padding bits, all zero. */
  ghost predicate Regroups(groups: seq<Group>, bytes: seq<Byte>)
  {
    && 0 <= 5 * |groups| - 8 * |bytes| < 5
    && GroupsValue(groups) == Number(bytes) * Pow2(5 * |groups| - 8 * |bytes|)
  }

  // -------------------------------------------------------------------------
  // Arithmetic of one step

  lemma AppendedByte(bytes: seq<Byte>, byte: Byte)
    ensures Number(bytes + [byte]) == 256 * Number(bytes) + byte
  { }

  lemma AppendedGroup(groups: seq<Group>, group: Group)
    ensures GroupsValue(groups + [group]) == 32 * GroupsValue(groups) + group
  { }

  lemma Euclid(x: nat, d: nat)
    requires d > 0
    ensures x == d * (x / d) + x % d && x % d < d
  { }

  /** `(x / a) / b == x / (a * b)`. */
  lemma DivDiv(x: nat, a: nat, b: nat)
    requires a > 0 && b > 0
    ensures a * b > 0 && (x / a) / b == x / (a * b)
  {
    Positive(a, b);
    Euclid(x, a);
    Euclid(x / a, b);
    Nested(x, a, b, x / a, x % a, (x / a) / b, (x / a) % b);
  }

  lemma Nested(x: nat, a: nat, b: nat, q: nat, m: nat, r: nat, n: nat)
    requires a * b > 0 && x == a * q + m && m < a && q == b * r + n && n < b
    ensures x / (a * b) == r
  {
    Spread(a, b, r, n);
    Below(a, b, n, m);
    QuotientIs(x, a * b, r, a * n + m);
  }

  lemma Positive(a: nat, b: nat)
    requires a > 0 && b > 0
    ensures a * b > 0
  { }

  lemma Spread(a: nat, b: nat, r: nat, m: nat)
    ensures a * (b * r + m) == (a * b) * r + a * m
  { }

  lemma Below(a: nat, b: nat, m: nat, n: nat)
    requires m < b && n < a
    ensures a * m + n < a * b
  {
    assert a * m <= a * (b - 1);
  }

  lemma Times(d: nat, a: int, b: int)
    ensures d * (a - b) == d * a - d * b
  { }

  lemma Multiple(d: nat, k: int)
    ensures k >= 1 ==> d * k >= d
    ensures k <= -1 ==> d * k <= -1 * d
  { }

  lemma QuotientIs(x: nat, d: nat, q: nat, rest: nat)
    requires d > 0 && x == d * q + rest && rest < d
    ensures x / d == q && x % d == rest
  {
    var k := x / d - q;
    Times(d, x / d, q);
    assert d * k == rest - x % d;
    Multiple(d, k);
  }

  /** Five more bits, none of them handed out. */
  lemma ShiftKeeps(e: nat, group: Group, p: nat)
    requires p > 0
    ensures 32 * p > 0 && (32 * e + group) / (32 * p) == e / p
  {
    DivDiv(32 * e + group, 32, p);
    assert (32 * e + group) / 32 == e;
  }

  lemma AddMultiple(m: nat, u: nat)
    ensures (256 * m + u) % 256 == u % 256
  { }

  /** Dropping the bits above 2^32 does not touch the eight that are handed out, nor
    * the ones that stay. */
  lemma HighBits(e: nat, q: nat, c: nat)
    requires q > 0 && q * (256 * c) == U32
    ensures (e % U32 / q) % 256 == (e / q) % 256
    ensures e % U32 % q == e % q
  {
    var t, u := e / U32, e % U32;
    Regroup(q, 256 * c, t, u / q, u % q);
    assert e == q * (256 * c * t + u / q) + u % q;
    QuotientIs(e, q, 256 * c * t + u / q, u % q);
    assert 256 * c * t == 256 * (c * t);
    AddMultiple(c * t, u / q);
  }

  lemma Regroup(q: nat, k: nat, t: nat, m: nat, n: nat)
    ensures (q * k) * t + (q * m + n) == q * (k * t + m) + n
  { }

  lemma HighBitsDoNotMatter(e: nat, b: nat)
    requires b <= 7
    ensures (e % U32 / Pow2(b)) % 256 == (e / Pow2(b)) % 256
    ensures e % U32 % Pow2(b) == e % Pow2(b)
  {
    Powers();
    HighBits(e, Pow2(b), Pow2(24 - b));
  }

  lemma Powers()
    ensures Pow2(0) == 1 && Pow2(1) == 2 && Pow2(2) == 4 && Pow2(3) == 8 && Pow2(4) == 16 && Pow2(5) == 32
    ensures Pow2(6) == 64 && Pow2(7) == 128
    ensures forall b: nat :: b <= 7 ==> Pow2(b) * (256 * Pow2(24 - b)) == U32
    ensures forall b: nat {:trigger Pow2(b)} :: b <= 7 ==> 32 * Pow2(b) == Pow2(b + 5)
  {
    assert Pow2(8) == 256 && Pow2(9) == 512 && Pow2(10) == 1024 && Pow2(11) == 2048 && Pow2(12) == 4096;
    assert Pow2(13) == 0x2000 && Pow2(14) == 0x4000 && Pow2(15) == 0x8000 && Pow2(16) == 0x1_0000;
    assert Pow2(17) == 0x2_0000 && Pow2(18) == 0x4_0000 && Pow2(19) == 0x8_0000 && Pow2(20) == 0x10_0000;
    assert Pow2(21) == 0x20_0000 && Pow2(22) == 0x40_0000 && Pow2(23) == 0x80_0000 && Pow2(24) == 0x100_0000;
    forall b: nat | b <= 7 ensures Pow2(b) * (256 * Pow2(24 - b)) == U32 {
      if b == 0 {} else if b == 1 {} else if b == 2 {} else if b == 3 {}
      else if b == 4 {} else if b == 5 {} else if b == 6 {} else {}
    }
  }

  // -------------------------------------------------------------------------
  // The two directions

  /** One more group in the exact number and in the wrapped one. */
  lemma Wraps(e: nat, group: Group)
    ensures (e % U32 * 32 % U32 + group) % U32 == (32 * e + group) % U32
  {
    var q, r := e / U32, e % U32;
    var s, t := r * 32 / U32, r * 32 % U32;
    assert t == 32 * (r - U32 / 32 * s);
    assert t + group < U32;
    Remainder(32 * e + group, 32 * q + s, t + group);
  }

  lemma WrapsByte(e: nat, byte: Byte)
    ensures e % U32 * 256 % U32 + byte == (256 * e + byte) % U32
  {
    var q, r := e / U32, e % U32;
    var s, t := r * 256 / U32, r * 256 % U32;
    assert t == 256 * (r - U32 / 256 * s);
    assert t + byte < U32;
    Remainder(256 * e + byte, 256 * q + s, t + byte);
  }

  lemma Remainder(x: nat, q: nat, r: nat)
    requires x == U32 * q + r && r < U32
    ensures x % U32 == r
  { }

  /** Eight bits are handed out: the bytes so far take them over. */
  lemma HandOut(e: nat, group: Group, bits: nat, bytes: seq<Byte>)
    requires 3 <= bits < 8 && Number(bytes) == e / Pow2(bits)
    ensures var now := 32 * e + group;
      Number(bytes + [now % U32 / Pow2(bits - 3) % 256]) == now / Pow2(bits - 3)
  {
    var now, q := 32 * e + group, Pow2(bits - 3);
    Powers();
    assert Pow2(bits) == 8 * q;
    ShiftKeeps(e, group, Pow2(bits));
    DivDiv(now, q, 256);
    assert q * 256 == 32 * Pow2(bits);
    HighBitsDoNotMatter(now, bits - 3);
    AppendedByte(bytes, now % U32 / q % 256);
  }

  lemma NothingYet(e: nat, group: Group, bits: nat)
    requires bits < 3
    ensures (32 * e + group) / Pow2(bits + 5) == e / Pow2(bits)
  {
    Powers();
    ShiftKeeps(e, group, Pow2(bits));
  }

  function Bit(x: nat, y: nat, weight: nat): nat
    requires weight > 0
  { if x / weight % 2 == 1 || y / weight % 2 == 1 then weight else 0 }

  /** Bitwise or with a number of three bits. */
  function OrThree(x: nat, h: nat): nat
  { x / 8 * 8 + Bit(x % 8, h, 4) + Bit(x % 8, h, 2) + Bit(x % 8, h, 1) }

  lemma OrNothing(x: nat)
    ensures OrThree(x, 0) == x
  {
    BitsOf(x % 8);
    Euclid(x, 8);
  }

  lemma BitsOf(a: nat)
    requires a < 8
    ensures Bit(a, 0, 4) + Bit(a, 0, 2) + Bit(a, 0, 1) == a
  { if a == 0 {} else if a == 1 {} else if a == 2 {} else if a == 3 {}
    else if a == 4 {} else if a == 5 {} else if a == 6 {} else {} }

  predicate AreGroups(raw: seq<Byte>) { forall i :: 0 <= i < |raw| ==> raw[i] < 32 }

  /** What the loop knows of the groups read so far, if they are groups. */
  ghost predicate ReadSoFar(raw: seq<Byte>, accumulator: nat, bits: nat, bytes: seq<Byte>)
  {
    AreGroups(raw) ==>
      accumulator == GroupsValue(raw) % U32 && Number(bytes) == GroupsValue(raw) / Pow2(bits)
  }

  /** The bytes whose 5-bit regrouping these groups are, or nothing if there are none.
    * A value of more than five bits runs into the group before it. */
  method FromBase32(raw: seq<Byte>) returns (r: Option<seq<Byte>>)
    ensures AreGroups(raw) && r.Some? ==> Regroups(raw, r.value)
    ensures AreGroups(raw) && r.None? ==> forall bytes :: !Regroups(raw, bytes)
    ensures r.Some? ==> 0 <= 5 * |raw| - 8 * |r.value| < 5
  {
    hide GroupsValue, Number, Pow2, Regroups, OrThree, ReadSoFar;
    var bytes: seq<Byte> := [];
    var accumulator: nat, bits: nat := 0, 0;
    NothingRead();
    assert raw[..0] == [];
    for i := 0 to |raw|
      invariant bits == 5 * i - 8 * |bytes| && 0 <= bits < 8
      invariant accumulator < U32 && ReadSoFar(raw[..i], accumulator, bits, bytes)
    {
      ghost var before := accumulator;
      accumulator := OrThree(accumulator, raw[i] / 32) * 32 % U32 + raw[i] % 32;
      OneMoreGroup(raw, i, before, bits, bytes);
      if bits + 5 >= 8 {
        bytes := bytes + [accumulator / Pow2(bits - 3) % 256];
        bits := bits - 3;
      } else {
        bits := bits + 5;
      }
    }
    assert raw[..|raw|] == raw;
    if AreGroups(raw) { ReadIsVerdict(raw, accumulator, bits, bytes); }
    if bits >= 5 { return None; }
    if accumulator % Pow2(bits) != 0 { return None; }
    return Some(bytes);
  }

  lemma NothingRead()
    ensures ReadSoFar([], 0, 0, [])
  { Empty(); }

  lemma Empty()
    ensures GroupsValue([]) == 0 && Number([]) == 0 && Pow2(0) == 1
  { }

  /** The next group goes to the end of the number, and eight bits are handed out
    * when there are so many. */
  lemma OneMoreGroup(raw: seq<Byte>, i: nat, before: nat, bits: nat, bytes: seq<Byte>)
    requires i < |raw| && bits < 8 && before < U32 && ReadSoFar(raw[..i], before, bits, bytes)
    ensures var after := OrThree(before, raw[i] / 32) * 32 % U32 + raw[i] % 32;
      && after < U32
      && (bits + 5 >= 8 ==> ReadSoFar(raw[..i + 1], after, bits - 3, bytes + [after / Pow2(bits - 3) % 256]))
      && (bits + 5 < 8 ==> ReadSoFar(raw[..i + 1], after, bits + 5, bytes))
  {
    hide GroupsValue, Number, Pow2, OrThree, ReadSoFar;
    ShiftedFits(OrThree(before, raw[i] / 32), raw[i] % 32);
    var after := OrThree(before, raw[i] / 32) * 32 % U32 + raw[i] % 32;
    if AreGroups(raw[..i + 1]) {
      assert raw[i] == raw[..i + 1][i];
      assert forall j :: 0 <= j < i ==> raw[..i][j] == raw[..i + 1][j];
      assert raw[..i + 1] == raw[..i] + [raw[i]];
      GroupIsRead(raw[..i], raw[i], before, after, bits, bytes);
    } else {
      NotGroups(raw[..i + 1], after, bits + 5, bytes);
      if bits + 5 >= 8 { NotGroups(raw[..i + 1], after, bits - 3, bytes + [after / Pow2(bits - 3) % 256]); }
    }
  }

  lemma NotGroups(raw: seq<Byte>, accumulator: nat, bits: nat, bytes: seq<Byte>)
    requires !AreGroups(raw)
    ensures ReadSoFar(raw, accumulator, bits, bytes)
  { }

  lemma GroupIsRead(raw: seq<Group>, group: Group, before: nat, after: nat, bits: nat, bytes: seq<Byte>)
    requires bits < 8 && ReadSoFar(raw, before, bits, bytes)
    requires after == OrThree(before, group / 32) * 32 % U32 + group % 32
    ensures bits + 5 >= 8 ==> ReadSoFar(raw + [group], after, bits - 3, bytes + [after / Pow2(bits - 3) % 256])
    ensures bits + 5 < 8 ==> ReadSoFar(raw + [group], after, bits + 5, bytes)
  {
    hide GroupsValue, Number, Pow2, OrThree;
    var e := GroupsValue(raw);
    AppendedGroup(raw, group);
    AfterGroup(e, before, group);
    if bits + 5 >= 8 { HandOut(e, group, bits, bytes); } else { NothingYet(e, group, bits); }
  }

  lemma AfterGroup(e: nat, before: nat, group: Group)
    requires before == e % U32
    ensures OrThree(before, group / 32) * 32 % U32 + group % 32 == (32 * e + group) % U32
  {
    hide OrThree;
    SmallGroup(group);
    OrNothing(before);
    Wraps(e, group);
    ShiftedFits(before, group);
  }

  lemma SmallGroup(group: Group)
    ensures group / 32 == 0 && group % 32 == group
  { }

  lemma ReadIsVerdict(raw: seq<Byte>, accumulator: nat, bits: nat, bytes: seq<Byte>)
    requires AreGroups(raw) && ReadSoFar(raw, accumulator, bits, bytes) && bits == 5 * |raw| - 8 * |bytes| && bits < 8
    ensures bits >= 5 ==> forall other :: !Regroups(raw, other)
    ensures bits < 5 && accumulator % Pow2(bits) != 0 ==> forall other :: !Regroups(raw, other)
    ensures bits < 5 && accumulator % Pow2(bits) == 0 ==> Regroups(raw, bytes)
  {
    hide GroupsValue, Number, Pow2, Regroups;
    Verdict(raw, bytes, bits);
  }

  lemma ShiftedFits(x: nat, group: Group)
    ensures x * 32 % U32 + group < U32
  { }

  /** The leftover bits decide: too many, or not all zero, and there are no bytes. */
  lemma Verdict(groups: seq<Group>, bytes: seq<Byte>, bits: nat)
    requires bits == 5 * |groups| - 8 * |bytes| && bits < 8 && Number(bytes) == GroupsValue(groups) / Pow2(bits)
    ensures bits >= 5 ==> forall other :: !Regroups(groups, other)
    ensures bits < 5 && GroupsValue(groups) % U32 % Pow2(bits) != 0 ==> forall other :: !Regroups(groups, other)
    ensures bits < 5 && GroupsValue(groups) % U32 % Pow2(bits) == 0 ==> Regroups(groups, bytes)
  {
    hide *;
    HighBitsDoNotMatter(GroupsValue(groups), bits);
    if bits < 5 && GroupsValue(groups) % Pow2(bits) == 0 { Matched(groups, bytes, bits); }
    forall other ensures Regroups(groups, other) ==> bits < 5 && GroupsValue(groups) % Pow2(bits) == 0 {
      if Regroups(groups, other) { NoPadding(groups, other, bytes, bits); }
    }
  }

  lemma Matched(groups: seq<Group>, bytes: seq<Byte>, bits: nat)
    requires bits == 5 * |groups| - 8 * |bytes| && bits < 5 && Number(bytes) == GroupsValue(groups) / Pow2(bits)
    requires GroupsValue(groups) % Pow2(bits) == 0
    ensures Regroups(groups, bytes)
  {
    hide GroupsValue, Number, Pow2;
    Whole(GroupsValue(groups), Pow2(bits));
  }

  lemma NoPadding(groups: seq<Group>, other: seq<Byte>, bytes: seq<Byte>, bits: nat)
    requires Regroups(groups, other) && bits < 8 && bits == 5 * |groups| - 8 * |bytes|
    ensures bits < 5 && GroupsValue(groups) % Pow2(bits) == 0
  {
    hide GroupsValue, Number, Pow2;
    assert |other| == |bytes|;
    Swap(Pow2(bits), Number(other));
    QuotientIs(GroupsValue(groups), Pow2(bits), Number(other), 0);
  }

  lemma Swap(a: nat, b: nat)
    ensures a * b == b * a
  { }

  lemma Whole(e: nat, p: nat)
    requires p > 0 && e % p == 0
    ensures e == e / p * p
  { }

  /** Five bits are handed out: the groups so far take them over. */
  lemma HandOutGroup(e: nat, bits: nat, groups: seq<Group>)
    requires bits <= 7 && GroupsValue(groups) == e / Pow2(bits + 5)
    ensures GroupsValue(groups + [e % U32 / Pow2(bits) % 32]) == e / Pow2(bits)
  {
    Powers();
    DivDiv(e, Pow2(bits), 32);
    HighBitsDoNotMatter(e, bits);
    LowFive(e % U32 / Pow2(bits), e / Pow2(bits));
    AppendedGroup(groups, e % U32 / Pow2(bits) % 32);
  }

  lemma LowFive(x: nat, y: nat)
    requires x % 256 == y % 256
    ensures x % 32 == y % 32
  {
    ModMod(x);
    ModMod(y);
  }

  lemma ModMod(x: nat)
    ensures x % 256 % 32 == x % 32 && x % U32 % 32 == x % 32
  {
    LastFive(x, 8 * (x / 256), x % 256);
    LastFive(x, U32 / 32 * (x / U32), x % U32);
  }

  lemma LastFive(x: nat, m: nat, r: nat)
    requires x == 32 * m + r
    ensures r % 32 == x % 32
  { }

  /** Every byte, five bits at a time, the last group padded with zeros. */
  method ToBase32(bytes: seq<Byte>) returns (groups: seq<Group>)
    ensures Regroups(groups, bytes)
  {
    hide GroupsValue, Number, Pow2;
    groups := [];
    var accumulator, bits := 0, 0;
    Empty();
    for i := 0 to |bytes|
      invariant bits == 8 * i - 5 * |groups| && 0 <= bits < 5
      invariant accumulator == Number(bytes[..i]) % U32
      invariant GroupsValue(groups) == Number(bytes[..i]) / Pow2(bits)
    {
      ghost var e := Number(bytes[..i]);
      OneMoreByte(bytes, i);
      accumulator := accumulator * 256 % U32 + bytes[i];
      ghost var now := Number(bytes[..i + 1]);
      ShiftByte(e, bytes[i], bits);
      bits := bits + 8;
      while bits >= 5
        invariant bits == 8 * (i + 1) - 5 * |groups| && 0 <= bits < 13
        invariant GroupsValue(groups) == now / Pow2(bits)
      {
        bits := bits - 5;
        HandOutGroup(now, bits, groups);
        groups := groups + [accumulator / Pow2(bits) % 32];
      }
    }
    assert bytes[..|bytes|] == bytes;
    Exact(Number(bytes));
    if bits > 0 {
      Padded(Number(bytes), bits, groups);
      groups := groups + [accumulator * Pow2(5 - bits) % U32 % 32];
    }
  }

  lemma Exact(e: nat)
    ensures e / Pow2(0) == e == e * Pow2(0)
  { }

  lemma OneMoreByte(bytes: seq<Byte>, i: nat)
    requires i < |bytes|
    ensures Number(bytes[..i + 1]) == 256 * Number(bytes[..i]) + bytes[i]
    ensures Number(bytes[..i]) % U32 * 256 % U32 + bytes[i] == Number(bytes[..i + 1]) % U32
  {
    assert bytes[..i + 1][..i] == bytes[..i];
    WrapsByte(Number(bytes[..i]), bytes[i]);
  }

  lemma ShiftByte(e: nat, byte: Byte, bits: nat)
    requires bits < 5
    ensures (256 * e + byte) / Pow2(bits + 8) == e / Pow2(bits)
  {
    assert Pow2(bits + 8) == 2 * Pow2(bits + 7) && Pow2(bits + 7) == 2 * Pow2(bits + 6)
      && Pow2(bits + 6) == 2 * Pow2(bits + 5);
    assert Pow2(bits + 5) == 2 * Pow2(bits + 4) && Pow2(bits + 4) == 2 * Pow2(bits + 3)
      && Pow2(bits + 3) == 2 * Pow2(bits + 2);
    assert Pow2(bits + 2) == 2 * Pow2(bits + 1) && Pow2(bits + 1) == 2 * Pow2(bits);
    DivDiv(256 * e + byte, 256, Pow2(bits));
    assert (256 * e + byte) / 256 == e;
  }

  lemma Padded(e: nat, bits: nat, groups: seq<Group>)
    requires 0 < bits < 5 && GroupsValue(groups) == e / Pow2(bits)
    ensures GroupsValue(groups + [e % U32 * Pow2(5 - bits) % U32 % 32]) == e * Pow2(5 - bits)
  {
    Powers();
    var p, s := Pow2(bits), Pow2(5 - bits);
    assert p * s == 32 && p * (256 * (U32 / 256 / p)) == U32 by {
      if bits == 1 {} else if bits == 2 {} else if bits == 3 {} else {} }
    LastGroup(e, p, s);
    AppendedGroup(groups, e % U32 * s % U32 % 32);
  }

  lemma LastGroup(e: nat, p: nat, s: nat)
    requires p * s == 32 && p * (256 * (U32 / 256 / p)) == U32 && p > 0
    ensures 32 * (e / p) + e % U32 * s % U32 % 32 == e * s
  {
    var u := e % U32;
    HighBits(e, p, U32 / 256 / p);
    ModMod(u * s);
    TimesParts(u, p, s);
    TimesParts(e, p, s);
    SmallRest(e % p, p, s);
    QuotientIs(u * s, 32, u / p, e % p * s);
  }

  lemma TimesParts(x: nat, p: nat, s: nat)
    requires p > 0 && p * s == 32
    ensures x * s == 32 * (x / p) + x % p * s
  { }

  lemma SmallRest(r: nat, p: nat, s: nat)
    requires r < p && p * s == 32
    ensures r * s < 32
  { }

  // -------------------------------------------------------------------------
  // Each determines the other

  lemma {:induction false} BytesAreDigits(a: seq<Byte>, b: seq<Byte>)
    requires |a| == |b| && Number(a) == Number(b)
    ensures a == b
  {
    if a != [] {
      BytesAreDigits(a[..|a| - 1], b[..|b| - 1]);
      assert a == a[..|a| - 1] + [a[|a| - 1]] && b == b[..|b| - 1] + [b[|b| - 1]];
    }
  }

  lemma {:induction false} GroupsAreDigits(a: seq<Group>, b: seq<Group>)
    requires |a| == |b| && GroupsValue(a) == GroupsValue(b)
    ensures a == b
  {
    if a != [] {
      GroupsAreDigits(a[..|a| - 1], b[..|b| - 1]);
      assert a == a[..|a| - 1] + [a[|a| - 1]] && b == b[..|b| - 1] + [b[|b| - 1]];
    }
  }

  lemma Cancel(a: nat, b: nat, p: nat)
    requires p > 0 && a * p == b * p
    ensures a == b
  { }

  /** No two byte strings share their groups, and no two group strings that are
    * accepted share their bytes. */
  lemma RegroupingIsOneToOne(groups: seq<Group>, bytes: seq<Byte>, otherGroups: seq<Group>, otherBytes: seq<Byte>)
    requires Regroups(groups, bytes) && Regroups(otherGroups, otherBytes)
    ensures groups == otherGroups <==> bytes == otherBytes
  {
    if groups == otherGroups {
      Cancel(Number(bytes), Number(otherBytes), Pow2(5 * |groups| - 8 * |bytes|));
      BytesAreDigits(bytes, otherBytes);
    }
    if bytes == otherBytes { GroupsAreDigits(groups, otherGroups); }
  }

  /** Decoding what was encoded gives it back. */
  method DecodeOfEncode(bytes: seq<Byte>) returns (groups: seq<Group>, again: Option<seq<Byte>>)
    ensures Regroups(groups, bytes) && again == Some(bytes)
  {
    groups := ToBase32(bytes);
    again := FromBase32(groups);
    RegroupingIsOneToOne(groups, bytes, groups, again.value);
  }

  /** And encoding what was decoded gives back the very same groups. */
  method EncodeOfDecode(groups: seq<Group>) returns (bytes: Option<seq<Byte>>, again: seq<Group>)
    ensures bytes.Some? ==> Regroups(groups, bytes.value) && again == groups
    ensures bytes.None? ==> forall b :: !Regroups(groups, b)
  {
    bytes := FromBase32(groups);
    again := groups;
    if bytes.Some? {
      again := ToBase32(bytes.value);
      RegroupingIsOneToOne(groups, bytes.value, again, bytes.value);
    }
  }
}
