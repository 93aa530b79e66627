/** Bytes, and big-endian 16-bit words of them. */
module WireBytes {

  type Byte = n: nat | n < 256

  type Bytes = seq<Byte>

  function Word(bytes: Bytes, at: nat): (word: nat)
    requires at + 1 < |bytes|
    ensures word < 0x1_0000
  {
    (bytes[at] as nat) * 256 + bytes[at + 1] as nat
  }

  function WordBytes(value: nat): (bytes: Bytes)
    requires value < 0x1_0000
    ensures |bytes| == 2 && Word(bytes, 0) == value
  {
    [(value / 256) as Byte, (value % 256) as Byte]
  }

  function Zeros(n: nat): (zeros: Bytes)
    ensures |zeros| == n && forall i :: 0 <= i < n ==> zeros[i] == 0
  {
    if n == 0 then [] else Zeros(n - 1) + [0]
  }
}
