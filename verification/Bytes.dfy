/** Byte strings, big-endian 32-bit words, and concatenation of chunk lists. */
module Bytes {

  type byte = x: int | 0 <= x < 256

  const TWO_TO_THE_32: nat := 0x1_0000_0000

  /** Four bytes, most significant first. */
  function U32(n: nat): (r: seq<byte>)
    requires n < TWO_TO_THE_32
    ensures |r| == 4
  {
    var high := n / 256;
    var higher := high / 256;
    [higher / 256, higher % 256, high % 256, n % 256]
  }

  /** The big-endian word in the first four bytes. */
  function ReadU32(b: seq<byte>): (n: nat)
    requires |b| >= 4
    ensures n < TWO_TO_THE_32
  {
    ((b[0] as int * 256 + b[1]) * 256 + b[2]) * 256 + b[3]
  }

  lemma ReadWrittenU32(n: nat)
    requires n < TWO_TO_THE_32
    ensures ReadU32(U32(n)) == n
  {
    var high := n / 256;
    var higher := high / 256;
    assert n == high * 256 + n % 256;
    assert high == higher * 256 + high % 256;
    assert higher == higher / 256 * 256 + higher % 256;
  }

  lemma WriteReadU32(b: seq<byte>)
    requires |b| >= 4
    ensures U32(ReadU32(b)) == b[..4]
  {
    var n := ReadU32(b);
    var high := (b[0] as int * 256 + b[1]) * 256 + b[2];
    var higher := b[0] as int * 256 + b[1];
    assert n / 256 == high && n % 256 == b[3];
    assert high / 256 == higher && high % 256 == b[2];
    assert higher / 256 == b[0] && higher % 256 == b[1];
  }

  function Concat(parts: seq<seq<byte>>): seq<byte> {
    if parts == [] then [] else parts[0] + Concat(parts[1..])
  }

  lemma ConcatAppend(parts: seq<seq<byte>>, last: seq<byte>)
    ensures Concat(parts + [last]) == Concat(parts) + last
  {
    if parts != [] {
      ConcatAppend(parts[1..], last);
      assert (parts + [last])[1..] == parts[1..] + [last];
    }
  }

  lemma TakeOneMore<T>(s: seq<T>, k: nat)
    requires 0 < k <= |s|
    ensures s[..k] == s[..k - 1] + [s[k - 1]]
  {
  }

  lemma Regroup<T>(a: seq<T>, b: seq<T>, c: seq<T>)
    ensures (a + b) + c == a + (b + c)
  {
  }
}
