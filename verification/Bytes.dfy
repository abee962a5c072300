// Octets, byte orders and the Option type shared by every other module.
module Bytes {

  type byte = x: int | 0 <= x < 256

  datatype Option<+T> = None | Some(value: T) {
    predicate IsFailure() {
      None?
    }

    function PropagateFailure<U>(): Option<U>
      requires None?
    {
      None
    }

    function Extract(): T
      requires Some?
    {
      value
    }
  }

  function Min(a: int, b: int): int {
    if a < b then a else b
  }

  function Low(v: int): byte {
    v % 256
  }

  function High(v: int): byte {
    (v / 256) % 256
  }

  // Little-endian 16-bit fields (the daemon's framed DATA protocol).
  function PutLe16(v: int): seq<byte> {
    [Low(v), High(v)]
  }

  // Big-endian fields (the XR wire).
  function PutBe16(v: int): seq<byte> {
    [High(v), Low(v)]
  }

  function PutBe32(v: int): seq<byte> {
    PutBe16(v / 65536) + PutBe16(v % 65536)
  }

  function Join16(low: byte, high: byte): int {
    low + 256 * high
  }

  function Join32(b3: byte, b2: byte, b1: byte, b0: byte): int {
    65536 * Join16(b2, b3) + Join16(b0, b1)
  }

  // Two's complement reading and writing of a 16-bit or 8-bit field.
  function Signed16(v: int): int {
    if v < 32768 then v else v - 65536
  }

  function Unsigned16(v: int): int {
    if v < 0 then v + 65536 else v
  }

  function Signed8(v: byte): int {
    if v < 128 then v else v - 256
  }

  function Unsigned8(v: int): byte
    requires -128 <= v < 128
  {
    if v < 0 then v + 256 else v
  }

  const U32: int := 0x1_0000_0000

  // ++ on a uint32_t.
  function NextU32(v: nat): (r: nat)
    ensures r < U32
  {
    (v + 1) % U32
  }

  lemma Split16(v: int)
    requires 0 <= v < 65536
    ensures Join16(Low(v), High(v)) == v
  {
  }

  lemma Joined16(low: byte, high: byte)
    ensures 0 <= Join16(low, high) < 65536
    ensures Low(Join16(low, high)) == low && High(Join16(low, high)) == high
  {
  }

  lemma Split32(v: int)
    requires 0 <= v < U32
    ensures var p := PutBe32(v);
            |p| == 4 && Join32(p[0], p[1], p[2], p[3]) == v
  {
    Split16(v / 65536);
    Split16(v % 65536);
  }
}
