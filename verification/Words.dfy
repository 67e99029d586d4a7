/** Bytes, and the sizes of the machine integers. */
module Words {
  type Byte = x: nat | x < 256

  const U16: nat := 0x1_0000
  const U32: nat := 0x1_0000_0000
  const U64: nat := 0x1_0000_0000_0000_0000

  function Pow256(width: nat): (p: nat)
    ensures p > 0
  { if width == 0 then 1 else 256 * Pow256(width - 1) }

  /** Most significant first. */
  function Number(raw: seq<Byte>): nat
  { if raw == [] then 0 else 256 * Number(raw[..|raw| - 1]) + raw[|raw| - 1] }
}
