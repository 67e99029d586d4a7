/** Removing the empty output scripts from a serialized PSBTv2, byte by byte. */
module Strip {
  import opened Wrappers
  import opened Words

  const MAGIC: seq<Byte> := [0x70, 0x73, 0x62, 0x74, 0xff]

  const OUT_SCRIPT: seq<Byte> := [0x04]

  // -------------------------------------------------------------------------
  // What the bytes mean

  /** Little-endian. */
  function Value(raw: seq<Byte>): nat
  { if raw == [] then 0 else raw[0] + 256 * Value(raw[1..]) }

  function Width(first: Byte): nat
  { if first == 0xfd then 2 else if first == 0xfe then 4 else if first == 0xff then 8 else 0 }

  /** A length and how many bytes say it. */
  function Size(rest: seq<Byte>): (r: Option<(nat, nat)>)
    ensures r.Some? ==> 0 < r.value.1 <= |rest|
  {
    if rest == [] then None
    else if Width(rest[0]) == 0 then Some((rest[0], 1))
    else if |rest| < 1 + Width(rest[0]) then None
    else Some((Value(rest[1..1 + Width(rest[0])]), 1 + Width(rest[0])))
  }

  /** A key and a value, and the bytes they were read from. */
  datatype Pair = Pair(raw: seq<Byte>, key: seq<Byte>, value: seq<Byte>)

  datatype Piece = End(read: nat) | One(pair: Pair) | Broken

  function NextPiece(rest: seq<Byte>): (p: Piece)
    ensures p.End? ==> 0 < p.read <= |rest|
    ensures p.One? ==> 0 < |p.pair.raw| <= |rest| && p.pair.raw == rest[..|p.pair.raw|]
  {
    match Size(rest)
    case None => Broken
    case Some((keyLength, read)) =>
      if keyLength == 0 then End(read)
      else if |rest| < read + keyLength then Broken
      else
        match Size(rest[read + keyLength..])
        case None => Broken
        case Some((valueLength, more)) =>
          var start := read + keyLength + more;
          if |rest| < start + valueLength then Broken
          else One(Pair(rest[..start + valueLength], rest[read..read + keyLength], rest[start..start + valueLength]))
  }

  /** One key-value map and how many bytes it takes. */
  function MapOf(rest: seq<Byte>): (r: Option<(seq<Pair>, nat)>)
    ensures r.Some? ==> 0 < r.value.1 <= |rest|
    decreases |rest|
  {
    match NextPiece(rest)
    case Broken => None
    case End(read) => Some(([], read))
    case One(pair) =>
      var more := MapOf(rest[|pair.raw|..]);
      if more.None? then None else Some(([pair] + more.value.0, |pair.raw| + more.value.1))
  }

  function MapsOf(rest: seq<Byte>): Option<seq<seq<Pair>>>
    decreases |rest|
  {
    if rest == [] then Some([])
    else
      var first := MapOf(rest);
      if first.None? then None
      else
        var more := MapsOf(rest[first.value.1..]);
        if more.None? then None else Some([first.value.0] + more.value)
  }

  function Drops(pair: Pair): bool { pair.value == [] && pair.key == OUT_SCRIPT }

  function Kept(pairs: seq<Pair>): seq<Pair>
  { if pairs == [] then [] else (if Drops(pairs[0]) then [] else [pairs[0]]) + Kept(pairs[1..]) }

  function Filtered(maps: seq<seq<Pair>>, inputs: nat): (r: seq<seq<Pair>>)
    ensures |r| == |maps|
  { seq(|maps|, i requires 0 <= i < |maps| => if i >= 1 + inputs then Kept(maps[i]) else maps[i]) }

  function Rendered(pairs: seq<Pair>): seq<Byte>
  { if pairs == [] then [0] else pairs[0].raw + Rendered(pairs[1..]) }

  function RenderedAll(maps: seq<seq<Pair>>): seq<Byte>
  { if maps == [] then [] else Rendered(maps[0]) + RenderedAll(maps[1..]) }

  function Stripped(bytes: seq<Byte>, inputs: nat): Option<seq<Byte>>
  {
    if |bytes| < |MAGIC| || bytes[..|MAGIC|] != MAGIC then None
    else
      var maps := MapsOf(bytes[|MAGIC|..]);
      if maps.None? then None else Some(MAGIC + RenderedAll(Filtered(maps.value, inputs)))
  }

  // -------------------------------------------------------------------------
  // The code

  class Cursor {
    const bytes: seq<Byte>
    var position: nat

    predicate Valid()
      reads this
    { position <= |bytes| }

    function Rest(): seq<Byte>
      reads this
      requires Valid()
    { bytes[position..] }

    constructor (bytes: seq<Byte>)
      ensures this.bytes == bytes && position == 0 && Valid()
    { this.bytes, position := bytes, 0; }

    predicate IsEmpty()
      reads this
    { position >= |bytes| }

    method Take(length: nat) returns (r: Option<seq<Byte>>)
      requires Valid()
      modifies this
      ensures Valid()
      ensures r.Some? <==> length <= |old(Rest())|
      ensures r.Some? ==> r.value == old(Rest())[..length] && position == old(position) + length
      ensures r.None? ==> position == old(position)
    {
      var end := position + length;
      if end > |bytes| { return None; }
      var slice := bytes[position..end];
      position := end;
      return Some(slice);
    }

    method CompactSize() returns (r: Option<nat>)
      requires Valid()
      modifies this
      ensures Valid()
      ensures match Size(old(Rest()))
        case None => r.None?
        case Some((value, read)) => r == Some(value) && position == old(position) + read
    {
      ghost var rest := Rest();
      var first := Take(1);
      if first.None? { return None; }
      var width := Width(first.value[0]);
      if width == 0 { return Some(first.value[0]); }
      assert Rest() == rest[1..];
      var raw := Take(width);
      if raw.None? { return None; }
      assert raw.value == rest[1..1 + width];
      var value := LittleEndian(raw.value);
      return Some(value);
    }
  }

  method LittleEndian(raw: seq<Byte>) returns (value: nat)
    ensures value == Value(raw)
  {
    value := 0;
    var scale: nat := 1;
    for index := 0 to |raw|
      invariant value + scale * Value(raw[index..]) == Value(raw)
    {
      assert raw[index..][1..] == raw[index + 1..];
      Unfold(scale, raw[index], Value(raw[index + 1..]));
      value := value + scale * raw[index];
      scale := scale * 256;
    }
  }

  lemma Unfold(scale: nat, byte: nat, more: nat)
    ensures scale * (byte + 256 * more) == scale * byte + (scale * 256) * more
  { }

  /** What copying one map puts out, and how far it reads. */
  function Copied(rest: seq<Byte>, strip: bool): Option<(seq<Byte>, nat)>
    decreases |rest|
  {
    match NextPiece(rest)
    case Broken => None
    case End(read) => Some(([0], read))
    case One(pair) =>
      var more := Copied(rest[|pair.raw|..], strip);
      if more.None? then None
      else Some(((if strip && Drops(pair) then [] else pair.raw) + more.value.0, |pair.raw| + more.value.1))
  }

  function Ahead(done: seq<Byte>, read: nat, more: Option<(seq<Byte>, nat)>): Option<(seq<Byte>, nat)>
  { if more.None? then None else Some((done + more.value.0, read + more.value.1)) }

  lemma AheadOneMore(copied: seq<Byte>, read: nat, rest: seq<Byte>, strip: bool)
    requires NextPiece(rest).One?
    ensures var pair := NextPiece(rest).pair;
      Ahead(copied, read, Copied(rest, strip)) ==
        Ahead(copied + if strip && Drops(pair) then [] else pair.raw, read + |pair.raw|,
              Copied(rest[|pair.raw|..], strip))
  {
    hide NextPiece;
    var pair := NextPiece(rest).pair;
    var mine := if strip && Drops(pair) then [] else pair.raw;
    var more := Copied(rest[|pair.raw|..], strip);
    if more.Some? { assert copied + (mine + more.value.0) == copied + mine + more.value.0; }
  }

  lemma AheadAtEnd(out: seq<Byte>, copied: seq<Byte>, read: nat, rest: seq<Byte>, strip: bool)
    ensures NextPiece(rest).Broken? ==> Copied(rest, strip).None?
    ensures NextPiece(rest).End? ==>
      Ahead(copied, read, Copied(rest, strip)) == Some((copied + [0], read + NextPiece(rest).read))
    ensures out + (copied + [0]) == out + copied + [0]
  { }

  lemma AheadOfNothing(all: Option<(seq<Byte>, nat)>)
    ensures Ahead([], 0, all) == all
  { if all.Some? { assert [] + all.value.0 == all.value.0; } }

  method CopyMap(cursor: Cursor, out: seq<Byte>, strip: bool) returns (r: Option<seq<Byte>>)
    requires cursor.Valid()
    modifies cursor
    ensures cursor.Valid()
    ensures r.Some? <==> Copied(old(cursor.Rest()), strip).Some?
    ensures r.Some? ==> r.value == out + Copied(old(cursor.Rest()), strip).value.0
    ensures r.Some? ==> cursor.position == old(cursor.position) + Copied(old(cursor.Rest()), strip).value.1
  {
    hide NextPiece, Copied, Drops;
    ghost var begun := cursor.position;
    ghost var all := Copied(cursor.Rest(), strip);
    var copied: seq<Byte> := [];
    AheadOfNothing(all);
    while true
      invariant cursor.Valid() && begun <= cursor.position
      invariant all == Ahead(copied, cursor.position - begun, Copied(cursor.Rest(), strip))
      decreases |cursor.bytes| - cursor.position
    {
      var start := cursor.position;
      ghost var rest := cursor.Rest();
      AheadAtEnd(out, copied, start - begun, rest, strip);
      var piece := ReadPiece(cursor);
      match piece
      case Broken => return None;
      case End(_) => return Some(out + copied + [0]);
      case One(pair) =>
        assert cursor.Rest() == rest[|pair.raw|..];
        assert cursor.bytes[start..cursor.position] == rest[..|pair.raw|] == pair.raw;
        AheadOneMore(copied, start - begun, rest, strip);
        if !(strip && Drops(pair)) {
          copied := copied + cursor.bytes[start..cursor.position];
        } else {
          assert copied + [] == copied;
        }
    }
  }

  /** One pair, or the end of the map. */
  method ReadPiece(cursor: Cursor) returns (piece: Piece)
    requires cursor.Valid()
    modifies cursor
    ensures cursor.Valid() && piece == NextPiece(old(cursor.Rest()))
    ensures piece.End? ==> cursor.position == old(cursor.position) + piece.read
    ensures piece.One? ==> cursor.position == old(cursor.position) + |piece.pair.raw|
  {
    hide Size;
    ghost var rest := cursor.Rest();
    var start := cursor.position;
    var keyLength := cursor.CompactSize();
    if keyLength.None? { return Broken; }
    if keyLength.value == 0 { return End(cursor.position - start); }
    ghost var read := cursor.position - start;
    assert cursor.Rest() == rest[read..];
    var key := cursor.Take(keyLength.value);
    if key.None? { return Broken; }
    assert key.value == rest[read..read + keyLength.value];
    assert cursor.Rest() == rest[read + keyLength.value..];
    var value := ReadValue(cursor);
    if value.None? { return Broken; }
    return One(Pair(cursor.bytes[start..cursor.position], key.value, value.value));
  }

  method ReadValue(cursor: Cursor) returns (r: Option<seq<Byte>>)
    requires cursor.Valid()
    modifies cursor
    ensures cursor.Valid()
    ensures match Size(old(cursor.Rest()))
      case None => r.None?
      case Some((length, read)) =>
        if |old(cursor.Rest())| < read + length then r.None?
        else
          && r == Some(old(cursor.Rest())[read..read + length])
          && cursor.position == old(cursor.position) + read + length
  {
    hide Size;
    ghost var rest, start := cursor.Rest(), cursor.position;
    var length := cursor.CompactSize();
    if length.None? { return None; }
    ghost var read := cursor.position - start;
    assert cursor.Rest() == rest[read..];
    r := cursor.Take(length.value);
    assert r.Some? ==> r.value == rest[read..read + length.value];
  }

  /** The same maps in one pass. */
  function CopiedAll(rest: seq<Byte>, index: nat, inputs: nat): Option<seq<Byte>>
    decreases |rest|
  {
    if rest == [] then Some([])
    else
      var first := Copied(rest, index >= 1 + inputs);
      if first.None? then None
      else
        CopiedReads(rest, index >= 1 + inputs);
        var more := CopiedAll(rest[first.value.1..], index + 1, inputs);
        if more.None? then None else Some(first.value.0 + more.value)
  }

  lemma {:induction false} CopiedReads(rest: seq<Byte>, strip: bool)
    ensures Copied(rest, strip).Some? ==> 0 < Copied(rest, strip).value.1 <= |rest|
    decreases |rest|
  {
    match NextPiece(rest)
    case One(pair) => CopiedReads(rest[|pair.raw|..], strip);
    case _ =>
  }

  /** What is left to copy completes what is already out. */
  ghost predicate Completes(all: Option<seq<Byte>>, out: seq<Byte>, rest: seq<Byte>, index: nat, inputs: nat)
  {
    match all
    case None => CopiedAll(rest, index, inputs).None?
    case Some(whole) =>
      && CopiedAll(rest, index, inputs).Some?
      && MAGIC + whole == out + CopiedAll(rest, index, inputs).value
  }

  lemma CompletesOneMore(all: Option<seq<Byte>>, out: seq<Byte>, rest: seq<Byte>, index: nat, inputs: nat)
    requires Completes(all, out, rest, index, inputs) && rest != []
    ensures var first := Copied(rest, index >= 1 + inputs);
      if first.None? then all.None?
      else 0 < first.value.1 <= |rest| && Completes(all, out + first.value.0, rest[first.value.1..], index + 1, inputs)
  {
    hide Copied, CopiedAll;
    CopiedAllOneMore(rest, index, inputs);
    var first := Copied(rest, index >= 1 + inputs);
    if first.Some? {
      var more := CopiedAll(rest[first.value.1..], index + 1, inputs);
      if more.Some? { assert out + (first.value.0 + more.value) == out + first.value.0 + more.value; }
    }
  }

  lemma CopiedAllOneMore(rest: seq<Byte>, index: nat, inputs: nat)
    requires rest != []
    ensures var first := Copied(rest, index >= 1 + inputs);
      if first.None? then CopiedAll(rest, index, inputs).None?
      else
        && 0 < first.value.1 <= |rest|
        && var more := CopiedAll(rest[first.value.1..], index + 1, inputs);
        && CopiedAll(rest, index, inputs) == if more.None? then None else Some(first.value.0 + more.value)
  {
    hide Copied;
    CopiedReads(rest, index >= 1 + inputs);
  }

  method StripEmptyOutputScripts(bytes: seq<Byte>, inputs: nat) returns (r: Option<seq<Byte>>)
    ensures r == Stripped(bytes, inputs)
  {
    hide Copied, CopiedAll, Completes, Stripped;
    var cursor := new Cursor(bytes);
    var magic := cursor.Take(|MAGIC|);
    StrippedIs(bytes, inputs);
    if magic.None? || magic.value != MAGIC { return None; }
    r := CopyMaps(cursor, inputs);
  }

  method CopyMaps(cursor: Cursor, inputs: nat) returns (r: Option<seq<Byte>>)
    requires cursor.Valid()
    modifies cursor
    ensures r == var all := CopiedAll(old(cursor.Rest()), 0, inputs);
      if all.None? then None else Some(MAGIC + all.value)
  {
    hide Copied, CopiedAll, Completes;
    ghost var all := CopiedAll(cursor.Rest(), 0, inputs);
    NothingCopied(cursor.Rest(), inputs);
    var out := MAGIC;
    var index := 0;
    while !cursor.IsEmpty()
      invariant cursor.Valid() && Completes(all, out, cursor.Rest(), index, inputs)
      decreases |cursor.bytes| - cursor.position
    {
      ghost var rest := cursor.Rest();
      CompletesOneMore(all, out, rest, index, inputs);
      var copied := CopyMap(cursor, out, index >= 1 + inputs);
      if copied.None? { return None; }
      assert cursor.Rest() == rest[Copied(rest, index >= 1 + inputs).value.1..];
      out := copied.value;
      index := index + 1;
    }
    AllCopied(all, out, cursor.Rest(), index, inputs);
    return Some(out);
  }

  lemma StrippedIs(bytes: seq<Byte>, inputs: nat)
    ensures Stripped(bytes, inputs) ==
      if |bytes| < |MAGIC| || bytes[..|MAGIC|] != MAGIC || CopiedAll(bytes[|MAGIC|..], 0, inputs).None? then None
      else Some(MAGIC + CopiedAll(bytes[|MAGIC|..], 0, inputs).value)
  {
    hide CopiedAll, MapsOf, RenderedAll, Filtered;
    if |bytes| >= |MAGIC| { CopiedIsFiltered(bytes[|MAGIC|..], 0, inputs); }
  }

  lemma NothingCopied(rest: seq<Byte>, inputs: nat)
    ensures Completes(CopiedAll(rest, 0, inputs), MAGIC, rest, 0, inputs)
  { }

  lemma AllCopied(all: Option<seq<Byte>>, out: seq<Byte>, rest: seq<Byte>, index: nat, inputs: nat)
    requires rest == [] && Completes(all, out, rest, index, inputs)
    ensures all.Some? && MAGIC + all.value == out
  { }

  // -------------------------------------------------------------------------
  // Copying is parsing, filtering and writing

  lemma {:induction false} CopiedIsKept(rest: seq<Byte>, strip: bool)
    ensures Copied(rest, strip) ==
      if MapOf(rest).None? then None
      else Some((Rendered(if strip then Kept(MapOf(rest).value.0) else MapOf(rest).value.0), MapOf(rest).value.1))
    decreases |rest|
  {
    hide NextPiece, Rendered, Kept;
    match NextPiece(rest)
    case One(pair) =>
      CopiedIsKept(rest[|pair.raw|..], strip);
      if MapOf(rest[|pair.raw|..]).Some? { RenderedOneMore(pair, MapOf(rest[|pair.raw|..]).value.0, strip); }
    case End(_) => EndIsRendered();
    case Broken =>
  }

  lemma EndIsRendered()
    ensures Kept([]) == [] && Rendered([]) == [0]
  { }

  lemma RenderedOneMore(pair: Pair, rest: seq<Pair>, strip: bool)
    ensures Rendered(if strip then Kept([pair] + rest) else [pair] + rest)
      == (if strip && Drops(pair) then [] else pair.raw) + Rendered(if strip then Kept(rest) else rest)
  {
    OneMore(pair, rest);
    OneMore(pair, Kept(rest));
    assert [] + Rendered(Kept(rest)) == Rendered(Kept(rest));
  }

  lemma OneMore(pair: Pair, rest: seq<Pair>)
    ensures Rendered([pair] + rest) == pair.raw + Rendered(rest)
    ensures Kept([pair] + rest) == if Drops(pair) then Kept(rest) else [pair] + Kept(rest)
  { }

  function FilteredFrom(maps: seq<seq<Pair>>, index: nat, inputs: nat): seq<seq<Pair>>
  {
    if maps == [] then []
    else [if index >= 1 + inputs then Kept(maps[0]) else maps[0]] + FilteredFrom(maps[1..], index + 1, inputs)
  }

  lemma {:induction false} FilteredFromAt(maps: seq<seq<Pair>>, index: nat, inputs: nat)
    ensures |FilteredFrom(maps, index, inputs)| == |maps|
    ensures forall i :: 0 <= i < |maps| ==>
      FilteredFrom(maps, index, inputs)[i] == if index + i >= 1 + inputs then Kept(maps[i]) else maps[i]
  {
    hide Kept;
    if maps != [] { FilteredFromAt(maps[1..], index + 1, inputs); }
  }

  lemma {:induction false} CopiedAllIsFilteredFrom(rest: seq<Byte>, index: nat, inputs: nat)
    ensures CopiedAll(rest, index, inputs) ==
      if MapsOf(rest).None? then None else Some(RenderedAll(FilteredFrom(MapsOf(rest).value, index, inputs)))
    decreases |rest|
  {
    hide MapOf, Copied, Rendered, Kept;
    if rest != [] {
      CopiedIsKept(rest, index >= 1 + inputs);
      var first := MapOf(rest);
      if first.Some? {
        CopiedAllIsFilteredFrom(rest[first.value.1..], index + 1, inputs);
        var more := MapsOf(rest[first.value.1..]);
        if more.Some? { MapThenMore(first.value.0, more.value, index, inputs); }
      }
    }
  }

  lemma MapThenMore(first: seq<Pair>, more: seq<seq<Pair>>, index: nat, inputs: nat)
    ensures var kept := if index >= 1 + inputs then Kept(first) else first;
      RenderedAll(FilteredFrom([first] + more, index, inputs))
        == Rendered(kept) + RenderedAll(FilteredFrom(more, index + 1, inputs))
  {
    hide Rendered, Kept;
    assert ([first] + more)[1..] == more;
    var kept := if index >= 1 + inputs then Kept(first) else first;
    var rest := FilteredFrom(more, index + 1, inputs);
    assert ([kept] + rest)[1..] == rest;
  }

  lemma CopiedIsFiltered(rest: seq<Byte>, index: nat, inputs: nat)
    requires index == 0
    ensures CopiedAll(rest, 0, inputs) ==
      if MapsOf(rest).None? then None else Some(RenderedAll(Filtered(MapsOf(rest).value, inputs)))
  {
    CopiedAllIsFilteredFrom(rest, 0, inputs);
    if MapsOf(rest).Some? {
      FilteredFromAt(MapsOf(rest).value, 0, inputs);
      assert FilteredFrom(MapsOf(rest).value, 0, inputs) == Filtered(MapsOf(rest).value, inputs);
    }
  }

  // -------------------------------------------------------------------------
  // What is written is read back

  /** The raw bytes of the pair are read as this pair, whatever follows them. */
  ghost predicate WellFormed(pair: Pair)
  { NextPiece(pair.raw) == One(pair) }

  lemma SizeOfPrefix(raw: seq<Byte>, more: seq<Byte>)
    requires Size(raw).Some?
    ensures Size(raw + more) == Size(raw)
  {
    if Width(raw[0]) > 0 { assert (raw + more)[1..1 + Width(raw[0])] == raw[1..1 + Width(raw[0])]; }
  }

  lemma SliceOfAppend(a: seq<Byte>, b: seq<Byte>, i: nat, j: nat)
    requires i <= j <= |a|
    ensures (a + b)[i..j] == a[i..j] && (a + b)[i..] == a[i..] + b
  { }

  lemma SliceOfPrefix(s: seq<Byte>, n: nat, i: nat, j: nat)
    requires i <= j <= n <= |s|
    ensures s[..n][i..j] == s[i..j] && s[..n][i..] == s[i..][..n - i]
  { }

  lemma PieceOfPrefix(pair: Pair, more: seq<Byte>)
    requires WellFormed(pair)
    ensures NextPiece(pair.raw + more) == One(pair)
  {
    hide Size;
    var raw := pair.raw;
    SizeOfPrefix(raw, more);
    var (keyLength, read) := Size(raw).value;
    var at := read + keyLength;
    SliceOfAppend(raw, more, read, at);
    SliceOfAppend(raw, more, at, at);
    SizeOfPrefix(raw[at..], more);
    SliceOfAppend(raw, more, at + Size(raw[at..]).value.1, |raw|);
    SliceOfAppend(raw, more, 0, |raw|);
    assert raw[0..|raw|] == raw && (raw + more)[..|raw|] == raw;
  }

  lemma {:induction false} MapReadsBack(pairs: seq<Pair>, more: seq<Byte>)
    requires forall p :: p in pairs ==> WellFormed(p)
    ensures MapOf(Rendered(pairs) + more) == Some((pairs, |Rendered(pairs)|))
  {
    hide NextPiece, WellFormed, MapOf, Rendered;
    if pairs == [] {
      EmptyMapReadsBack(more);
    } else {
      var first, others := pairs[0], pairs[1..];
      MapReadsBack(others, more);
      assert pairs == [first] + others;
      OneMore(first, others);
      var rest := Rendered(others) + more;
      PieceOfPrefix(first, rest);
      PairThenRest(first, rest);
      assert Rendered(pairs) + more == first.raw + rest;
    }
  }

  lemma EmptyMapReadsBack(more: seq<Byte>)
    ensures MapOf(Rendered([]) + more) == Some(([], |Rendered([])|))
  {
    hide NextPiece;
    EndIsRead([0] + more);
  }

  lemma PairThenRest(pair: Pair, rest: seq<Byte>)
    requires NextPiece(pair.raw + rest) == One(pair) && MapOf(rest).Some?
    ensures MapOf(pair.raw + rest) == Some(([pair] + MapOf(rest).value.0, |pair.raw| + MapOf(rest).value.1))
  {
    hide NextPiece;
    assert (pair.raw + rest)[|pair.raw|..] == rest;
  }

  lemma EndIsRead(bytes: seq<Byte>)
    requires bytes != [] && bytes[0] == 0
    ensures NextPiece(bytes) == End(1)
  { }

  ghost predicate AllWellFormed(maps: seq<seq<Pair>>)
  { forall i, p :: 0 <= i < |maps| && p in maps[i] ==> WellFormed(p) }

  lemma {:induction false} MapsReadBack(maps: seq<seq<Pair>>)
    requires AllWellFormed(maps)
    ensures MapsOf(RenderedAll(maps)) == Some(maps)
  {
    if maps != [] {
      assert AllWellFormed(maps[1..]) by {
        forall i, p | 0 <= i < |maps| - 1 && p in maps[1..][i] ensures WellFormed(p) { assert p in maps[i + 1]; }
      }
      MapsReadBack(maps[1..]);
      MapReadsBack(maps[0], RenderedAll(maps[1..]));
      var bytes := RenderedAll(maps);
      assert bytes[|Rendered(maps[0])|..] == RenderedAll(maps[1..]);
      assert maps == [maps[0]] + maps[1..];
      RenderedIsNotEmpty(maps[0]);
    }
  }

  lemma {:induction false} RenderedIsNotEmpty(pairs: seq<Pair>)
    ensures |Rendered(pairs)| > 0
  {
    if pairs != [] { RenderedIsNotEmpty(pairs[1..]); }
  }

  lemma PieceIsWellFormed(rest: seq<Byte>)
    ensures NextPiece(rest).One? ==> WellFormed(NextPiece(rest).pair)
  {
    hide Size;
    if NextPiece(rest).One? {
      var n := |NextPiece(rest).pair.raw|;
      var (keyLength, read) := Size(rest).value;
      var at := read + keyLength;
      SizeOfShort(rest, n);
      SliceOfPrefix(rest, n, read, at);
      SliceOfPrefix(rest, n, at, at);
      SizeOfShort(rest[at..], n - at);
      SliceOfPrefix(rest, n, at + Size(rest[at..]).value.1, n);
      assert rest[..n][..n] == rest[..n];
    }
  }

  lemma SizeOfShort(rest: seq<Byte>, n: nat)
    requires Size(rest).Some? && Size(rest).value.1 <= n <= |rest|
    ensures Size(rest[..n]) == Size(rest)
  {
    if Width(rest[0]) > 0 { assert rest[..n][1..1 + Width(rest[0])] == rest[1..1 + Width(rest[0])]; }
  }

  lemma {:induction false} MapIsWellFormed(rest: seq<Byte>)
    ensures MapOf(rest).Some? ==> forall p :: p in MapOf(rest).value.0 ==> WellFormed(p)
    decreases |rest|
  {
    PieceIsWellFormed(rest);
    match NextPiece(rest)
    case One(pair) => MapIsWellFormed(rest[|pair.raw|..]);
    case _ =>
  }

  lemma {:induction false} MapsAreWellFormed(rest: seq<Byte>)
    ensures MapsOf(rest).Some? ==> AllWellFormed(MapsOf(rest).value)
    decreases |rest|
  {
    if rest != [] && MapOf(rest).Some? {
      MapIsWellFormed(rest);
      MapsAreWellFormed(rest[MapOf(rest).value.1..]);
    }
  }

  // -------------------------------------------------------------------------
  // What stripping does

  /** Exactly the empty output scripts go; everything else keeps its order. */
  lemma {:induction false} KeptIsExact(pairs: seq<Pair>)
    ensures forall p :: p in Kept(pairs) <==> p in pairs && !Drops(p)
    ensures Kept(pairs) == pairs <==> forall p :: p in pairs ==> !Drops(p)
    ensures |Kept(pairs)| <= |pairs|
    ensures forall p :: !Drops(p) ==> multiset(Kept(pairs))[p] == multiset(pairs)[p]
  {
    if pairs != [] {
      hide Drops, Kept;
      var first, rest := pairs[0], pairs[1..];
      KeptIsExact(rest);
      OneMore(first, rest);
      assert pairs == [first] + rest;
      KeptAgain(first, rest);
      SameCounts(first, rest);
    }
  }

  lemma SameCounts(first: Pair, rest: seq<Pair>)
    requires forall p :: !Drops(p) ==> multiset(Kept(rest))[p] == multiset(rest)[p]
    ensures forall p :: !Drops(p) ==> multiset(Kept([first] + rest))[p] == multiset([first] + rest)[p]
  {
    hide Drops, Kept;
    OneMore(first, rest);
  }

  lemma KeptAgain(first: Pair, rest: seq<Pair>)
    requires |Kept(rest)| <= |rest|
    ensures Kept([first] + rest) == [first] + rest <==> !Drops(first) && Kept(rest) == rest
  {
    hide Drops;
    OneMore(first, rest);
    if !Drops(first) { assert ([first] + Kept(rest))[1..] == Kept(rest) && ([first] + rest)[1..] == rest; }
  }

  /** Stripping a list of maps that was written pair by pair gives the same list
    * without the empty output scripts, written the same way. */
  lemma StripOfRendered(maps: seq<seq<Pair>>, inputs: nat)
    requires AllWellFormed(maps)
    ensures Stripped(MAGIC + RenderedAll(maps), inputs) == Some(MAGIC + RenderedAll(Filtered(maps, inputs)))
  {
    var bytes := MAGIC + RenderedAll(maps);
    assert bytes[..|MAGIC|] == MAGIC && bytes[|MAGIC|..] == RenderedAll(maps);
    MapsReadBack(maps);
  }

  lemma FilteredIsWellFormed(maps: seq<seq<Pair>>, inputs: nat)
    requires AllWellFormed(maps)
    ensures AllWellFormed(Filtered(maps, inputs))
    ensures Filtered(Filtered(maps, inputs), inputs) == Filtered(maps, inputs)
  {
    var once := Filtered(maps, inputs);
    forall i | 0 <= i < |maps|
      ensures forall p :: p in once[i] ==> WellFormed(p)
      ensures Filtered(once, inputs)[i] == once[i]
    {
      KeptIsExact(maps[i]);
      KeptIsExact(once[i]);
    }
    assert Filtered(once, inputs) == once;
  }

  /** Whatever is accepted parses afterwards to the same maps in the same order,
    * less the empty output scripts, and stripping it again changes nothing. */
  lemma StripIsExactAndIdempotent(bytes: seq<Byte>, inputs: nat)
    requires Stripped(bytes, inputs).Some?
    ensures var after := Stripped(bytes, inputs).value;
      && MapsOf(bytes[|MAGIC|..]).Some?
      && |after| >= |MAGIC| && after[..|MAGIC|] == MAGIC
      && MapsOf(after[|MAGIC|..]) == Some(Filtered(MapsOf(bytes[|MAGIC|..]).value, inputs))
      && Stripped(after, inputs) == Some(after)
  {
    var maps := MapsOf(bytes[|MAGIC|..]).value;
    var after := Stripped(bytes, inputs).value;
    MapsAreWellFormed(bytes[|MAGIC|..]);
    FilteredIsWellFormed(maps, inputs);
    MapsReadBack(Filtered(maps, inputs));
    assert after[|MAGIC|..] == RenderedAll(Filtered(maps, inputs));
    StripOfRendered(Filtered(maps, inputs), inputs);
  }

  // -------------------------------------------------------------------------
  // Pairs as a serializer writes them

  function Bytes(n: nat, width: nat): (r: seq<Byte>)
    ensures |r| == width
  { if width == 0 then [] else [n % 256] + Bytes(n / 256, width - 1) }

  lemma {:induction false} BytesReadBack(n: nat, width: nat)
    requires n < Pow256(width)
    ensures Value(Bytes(n, width)) == n
  {
    if width > 0 {
      BytesReadBack(n / 256, width - 1);
      assert Bytes(n, width)[1..] == Bytes(n / 256, width - 1);
    }
  }

  /** The shortest length field that holds `n`. */
  function SizeBytes(n: nat): seq<Byte>
  {
    if n < 0xfd then [n]
    else if n <= 0xffff then [0xfd] + Bytes(n, 2)
    else if n <= 0xffff_ffff then [0xfe] + Bytes(n, 4)
    else [0xff] + Bytes(n, 8)
  }

  lemma SizeReadsBack(n: nat, more: seq<Byte>)
    requires n < U64
    ensures Size(SizeBytes(n) + more) == Some((n, |SizeBytes(n)|))
  {
    var bytes, width := SizeBytes(n) + more, |SizeBytes(n)| - 1;
    if width > 0 {
      assert bytes[1..1 + width] == Bytes(n, width);
      PowersOf256();
      BytesReadBack(n, width);
    }
  }

  lemma PowersOf256()
    ensures Pow256(2) == 0x1_0000 && Pow256(4) == 0x1_0000_0000 && Pow256(8) == U64
  { }

  function Written(key: seq<Byte>, value: seq<Byte>): Pair
  { Pair(SizeBytes(|key|) + key + SizeBytes(|value|) + value, key, value) }

  /** So stripping a serialized PSBT is serializing it without the empty scripts. */
  lemma WrittenIsWellFormed(key: seq<Byte>, value: seq<Byte>)
    requires key != [] && |key| < U64 && |value| < U64
    ensures WellFormed(Written(key, value))
  {
    hide SizeBytes, Size;
    var raw, at := Written(key, value).raw, |SizeBytes(|key|)|;
    assert raw == SizeBytes(|key|) + (key + SizeBytes(|value|) + value);
    SizeReadsBack(|key|, key + SizeBytes(|value|) + value);
    assert raw[at + |key|..] == SizeBytes(|value|) + value;
    SizeReadsBack(|value|, value);
    assert raw[at..at + |key|] == key;
    assert raw[at + |key| + |SizeBytes(|value|)|..|raw|] == value;
    assert raw[..|raw|] == raw;
  }
}
