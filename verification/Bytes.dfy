/** Byte strings, fixed-width integers and the two errors of the upload filters. */
module Bytes {
  type byte = x: int | 0 <= x < 256
  type bytes = seq<byte>
  type Word = x: int | 0 <= x < 0x1_0000_0000

  /** ErrInvalid and ErrLimit of the upload package. */
  datatype Error = Invalid | Limit
  datatype Result<+T> = Ok(value: T) | Err(error: Error)
  datatype Option<+T> = None | Some(value: T)

  datatype Order = Little | Big

  /** The number written by two bytes, most significant first. */
  function Pair(hi: int, lo: int): int {
    256 * hi + lo
  }

  /** The number written by four bytes, most significant first. */
  function Quad(a: int, b: int, c: int, d: int): int {
    Pair(Pair(Pair(a, b), c), d)
  }

  function U16(o: Order, b: bytes, p: nat): (n: nat)
    requires p + 2 <= |b|
    ensures n < 0x1_0000
  {
    if o.Little? then Pair(b[p + 1], b[p]) else Pair(b[p], b[p + 1])
  }

  function U32(o: Order, b: bytes, p: nat): (n: nat)
    requires p + 4 <= |b|
    ensures n < 0x1_0000_0000
  {
    if o.Little? then Quad(b[p + 3], b[p + 2], b[p + 1], b[p])
    else Quad(b[p], b[p + 1], b[p + 2], b[p + 3])
  }

  function PutBE16(n: nat): (b: bytes)
    requires n < 0x1_0000
    ensures |b| == 2 && U16(Big, b, 0) == n
  {
    [n / 256, n % 256]
  }

  function PutBE32(n: Word): (b: bytes)
    ensures |b| == 4 && U32(Big, b, 0) == n
  {
    var m := n / 256;
    var k := m / 256;
    [k / 256, k % 256, m % 256, n % 256]
  }

  function PutLE32(n: Word): (b: bytes)
    ensures |b| == 4 && U32(Little, b, 0) == n
  {
    var m := n / 256;
    var k := m / 256;
    [n % 256, m % 256, k % 256, k / 256]
  }

  lemma PairSplit(hi: int, lo: byte)
    ensures Pair(hi, lo) / 256 == hi && Pair(hi, lo) % 256 == lo
  {
  }

  lemma BE16Unique(b: bytes)
    requires |b| == 2
    ensures b == PutBE16(U16(Big, b, 0))
  {
    PairSplit(b[0], b[1]);
  }

  lemma BE32Unique(b: bytes)
    requires |b| == 4
    ensures b == PutBE32(U32(Big, b, 0))
  {
    PairSplit(b[0], b[1]);
    PairSplit(Pair(b[0], b[1]), b[2]);
    PairSplit(Pair(Pair(b[0], b[1]), b[2]), b[3]);
  }

  lemma LE32Unique(b: bytes)
    requires |b| == 4
    ensures b == PutLE32(U32(Little, b, 0))
  {
    PairSplit(b[3], b[2]);
    PairSplit(Pair(b[3], b[2]), b[1]);
    PairSplit(Pair(Pair(b[3], b[2]), b[1]), b[0]);
  }

  /** Reading from a suffix is reading further into the whole. */
  lemma ShiftedRead(o: Order, b: bytes, p: nat, k: nat)
    requires p + k + 4 <= |b|
    ensures U32(o, b[p..], k) == U32(o, b, p + k)
  {
  }

  /** Four bytes read the same in place and on their own. */
  lemma SlicedRead(o: Order, b: bytes, p: nat)
    requires p + 4 <= |b|
    ensures U32(o, b, p) == U32(o, b[p..p + 4], 0)
  {
  }
}
