/** The FNV-1a lock hash (rust/bt-core/src/game.rs:191-199) over the bytes it is fed. */
module Hash {
  type Byte = b: int | 0 <= b < 256

  const OFFSET: nat := 0x811c_9dc5

  // Little-endian bytes of a two's complement value.
  function Bytes(v: int, n: nat): (b: seq<Byte>)
    ensures |b| == n
    decreases n
  { if n == 0 then [] else [v % 256] + Bytes((v - v % 256) / 256, n - 1) }

  function Words(vs: seq<int>, n: nat): (b: seq<Byte>)
    ensures |b| == |vs| * n
    decreases |vs|
  { if vs == [] then [] else Bytes(vs[0], n) + Words(vs[1..], n) }

  // Bitwise exclusive or of the low n bits.
  function Xor(a: nat, b: nat, n: nat): nat
    decreases n
  { if n == 0 then 0 else (a + b) % 2 + 2 * Xor(a / 2, b / 2, n - 1) }

  function Fed(h: nat, x: nat): nat { (Xor(h, x, 32) * 0x0100_0193) % 0x1_0000_0000 }

  function Fnv(h: nat, bytes: seq<Byte>): nat
    decreases |bytes|
  { if bytes == [] then h else Fnv(Fed(h, bytes[0]), bytes[1..]) }
}
