/** The CBOR byte string a PSBT travels in: sections 3.1 and 4.2.1 of RFC 8949. */
module Cbor {
  import opened Wrappers
  import opened Words

  /** The low `width` bytes of `n`, most significant first. */
  function BigEndian(n: nat, width: nat): (r: seq<Byte>)
    ensures |r| == width
  { if width == 0 then [] else BigEndian(n / 256, width - 1) + [n % 256] }

  /** The header for this many bytes; a length of 2^32 or more loses its high bits. */
  function Header(length: nat): seq<Byte>
  {
    if length <= 23 then [0x40 + length]
    else if length <= 255 then [0x58, length]
    else if length <= 65535 then [0x59] + BigEndian(length, 2)
    else [0x5a] + BigEndian(length % U32, 4)
  }

  method Encode(bytes: seq<Byte>) returns (out: seq<Byte>)
    ensures out == Header(|bytes|) + bytes
  {
    var length := |bytes|;
    out := [];
    if length <= 23 {
      out := [0x40 + length];
    } else if length <= 255 {
      out := [0x58, length];
    } else if length <= 65535 {
      out := [0x59];
      out := out + BigEndian(length, 2);
    } else {
      out := [0x5a];
      out := out + BigEndian(length % U32, 4);
    }
    out := out + bytes;
  }

  /** How many length bytes follow a first byte, and the least length they may say. */
  function Extra(additional: nat): Option<(nat, nat)>
  {
    if additional <= 23 then Some((0, 0))
    else if additional == 24 then Some((1, 24))
    else if additional == 25 then Some((2, 256))
    else if additional == 26 then Some((4, U16))
    else if additional == 27 then Some((8, U32))
    else None
  }

  /** The header's size and the length it states, when it is there in full and in
    * its shortest form. */
  function Stated(cbor: seq<Byte>): Option<(nat, nat)>
  {
    if cbor == [] || cbor[0] / 32 != 2 then None
    else
      var additional := cbor[0] % 32;
      match Extra(additional)
      case None => None
      case Some((width, least)) =>
        if |cbor| < 1 + width then None
        else
          var length := if width == 0 then additional else Number(cbor[1..1 + width]);
          if length < least then None else Some((1 + width, length))
  }

  /** What is inside, or nothing when it is not one byte string in canonical form. */
  function Unwrapped(cbor: seq<Byte>): Option<seq<Byte>>
  {
    match Stated(cbor)
    case None => None
    case Some((size, length)) => if size + length != |cbor| then None else Some(cbor[size..])
  }

  // -------------------------------------------------------------------------

  lemma {:induction false} NumberIsSmall(raw: seq<Byte>)
    ensures Number(raw) < Pow256(|raw|)
  {
    if raw != [] { NumberIsSmall(raw[..|raw| - 1]); }
  }

  lemma {:induction false} NumberOfBigEndian(n: nat, width: nat)
    requires n < Pow256(width)
    ensures Number(BigEndian(n, width)) == n
  {
    if width > 0 {
      NumberOfBigEndian(n / 256, width - 1);
      assert BigEndian(n, width)[..width - 1] == BigEndian(n / 256, width - 1);
    }
  }

  lemma {:induction false} BigEndianOfNumber(raw: seq<Byte>)
    ensures BigEndian(Number(raw), |raw|) == raw
  {
    if raw != [] {
      BigEndianOfNumber(raw[..|raw| - 1]);
      assert raw == raw[..|raw| - 1] + [raw[|raw| - 1]];
      assert Number(raw) / 256 == Number(raw[..|raw| - 1]) && Number(raw) % 256 == raw[|raw| - 1];
    }
  }

  lemma Powers()
    ensures Pow256(1) == 256 && Pow256(2) == U16 && Pow256(4) == U32 && Pow256(8) == U64
  { }

  lemma HeaderIsStated(length: nat, rest: seq<Byte>)
    requires length < U32
    ensures Stated(Header(length) + rest) == Some((|Header(length)|, length))
  {
    Powers();
    var cbor := Header(length) + rest;
    if length > 65535 {
      NumberOfBigEndian(length, 4);
      assert cbor[1..5] == BigEndian(length, 4);
    } else if length > 255 {
      NumberOfBigEndian(length, 2);
      assert cbor[1..3] == BigEndian(length, 2);
    } else if length > 23 {
      assert cbor[1..2] == [length];
      assert Number([length]) == length by { assert [length][..0] == []; }
    }
  }

  /** An encoding parses back exactly when its length fits 32 bits: a longer one
    * states a length that is not its own. */
  lemma EncodingParsesBackIff(bytes: seq<Byte>)
    ensures Unwrapped(Header(|bytes|) + bytes) == Some(bytes) <==> |bytes| < U32
    ensures |bytes| >= U32 ==> Unwrapped(Header(|bytes|) + bytes).None?
  {
    var cbor := Header(|bytes|) + bytes;
    if |bytes| < U32 {
      HeaderIsStated(|bytes|, bytes);
      assert cbor[|Header(|bytes|)|..] == bytes;
    } else {
      Powers();
      NumberOfBigEndian(|bytes| % U32, 4);
      assert cbor[1..5] == BigEndian(|bytes| % U32, 4);
    }
  }

  /** A length stated in its shortest form is the header's own. */
  lemma ShortestIsHeader(first: Byte, raw: seq<Byte>)
    requires |raw| == 1 || |raw| == 2 || |raw| == 4
    requires first == if |raw| == 1 then 0x58 else if |raw| == 2 then 0x59 else 0x5a
    requires Number(raw) >= if |raw| == 1 then 24 else if |raw| == 2 then 256 else U16
    ensures Header(Number(raw)) == [first] + raw
  {
    hide Pow256, BigEndian, Number;
    Powers();
    NumberIsSmall(raw);
    BigEndianOfNumber(raw);
    if |raw| == 1 { OneByte(raw); }
  }

  lemma OneByte(raw: seq<Byte>)
    requires |raw| == 1
    ensures raw == [raw[0]] && Number(raw) == raw[0]
  { }

  /** Whatever is accepted with a length under 2^32 is what the encoder writes. */
  lemma AcceptedIsEncoded(cbor: seq<Byte>)
    requires Unwrapped(cbor).Some? && |Unwrapped(cbor).value| < U32
    ensures cbor == Header(|Unwrapped(cbor).value|) + Unwrapped(cbor).value
  {
    hide Header, Number;
    var (size, length) := Stated(cbor).value;
    assert cbor == cbor[..size] + cbor[size..];
    if size > 1 {
      ShortestIsHeader(cbor[0], cbor[1..size]);
      assert cbor[..size] == [cbor[0]] + cbor[1..size];
    } else {
      ShortHeader(length);
      assert cbor[..1] == [cbor[0]];
    }
  }

  lemma ShortHeader(length: nat)
    ensures length <= 23 ==> Header(length) == [0x40 + length]
  { }

  // -------------------------------------------------------------------------

  method Unwrap(cbor: seq<Byte>) returns (r: Option<seq<Byte>>)
    ensures r == Unwrapped(cbor)
  {
    if cbor == [] { return None; }
    var first := cbor[0];
    if first / 32 != 2 { return None; }
    var additional := first % 32;
    var size, length := 1, additional;
    if additional == 24 {
      if |cbor| < 2 { return None; }
      size, length := 2, cbor[1];
      assert cbor[1..2] == [cbor[1]] && Number([cbor[1]]) == cbor[1] by { assert [cbor[1]][..0] == []; }
      if length < 24 { return None; }
    } else if additional == 25 {
      if |cbor| < 3 { return None; }
      size, length := 3, Number(cbor[1..3]);
      if length <= 255 { return None; }
    } else if additional == 26 {
      if |cbor| < 5 { return None; }
      size, length := 5, Number(cbor[1..5]);
      if length <= 65535 { return None; }
    } else if additional == 27 {
      if |cbor| < 9 { return None; }
      size, length := 9, Number(cbor[1..9]);
      if length <= 0xffff_ffff { return None; }
    } else if additional > 27 {
      return None;
    }
    if size + length != |cbor| { return None; }
    return Some(cbor[size..]);
  }

  /** Below 2^32 bytes the two are inverse to each other. */
  method RoundTrip(bytes: seq<Byte>) returns (cbor: seq<Byte>, again: Option<seq<Byte>>)
    ensures again == if |bytes| < U32 then Some(bytes) else None
    ensures forall other :: Unwrapped(other) == Some(bytes) && |bytes| < U32 ==> other == cbor
  {
    cbor := Encode(bytes);
    again := Unwrap(cbor);
    EncodingParsesBackIff(bytes);
    forall other | Unwrapped(other) == Some(bytes) && |bytes| < U32 ensures other == cbor {
      AcceptedIsEncoded(other);
    }
  }
}
