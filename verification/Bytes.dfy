/**
 Octets, big-endian integers and concatenation: the vocabulary that every wire format
 of the proxy shares.
 */
module Bytes {
  type byte = b: int | 0 <= b < 256
  type bytes = seq<byte>
  type u16 = n: nat | n < 0x1_0000
  type u32 = n: nat | n < 0x1_0000_0000

  datatype Option<+T> = None | Some(value: T)

  /** The two octets of a 16-bit number, most significant first. */
  function U16(n: u16): (r: bytes)
    ensures |r| == 2
  {
    [n / 256, n % 256]
  }

  function U32(n: u32): (r: bytes)
    ensures |r| == 4
  {
    U16(n / 0x1_0000) + U16(n % 0x1_0000)
  }

  function ReadU16(s: bytes, i: nat): u16
    requires i + 2 <= |s|
  {
    s[i] as int * 256 + s[i + 1] as int
  }

  function ReadU32(s: bytes, i: nat): u32
    requires i + 4 <= |s|
  {
    ReadU16(s, i) as int * 0x1_0000 + ReadU16(s, i + 2) as int
  }

  /** `p` stands in `s` at offset `i`. */
  ghost predicate At(s: bytes, i: nat, p: bytes) {
    i + |p| <= |s| && s[i..i + |p|] == p
  }

  lemma AtSplit(s: bytes, i: nat, p: bytes, q: bytes)
    ensures At(s, i, p + q) <==> At(s, i, p) && At(s, i + |p|, q)
  {
    var m, n := i + |p|, i + |p| + |q|;
    if At(s, i, p + q) {
      assert s[i..m] == s[i..n][..|p|] == p;
      assert s[m..n] == s[i..n][|p|..] == q;
    }
    if At(s, i, p) && At(s, m, q) {
      assert s[i..n] == s[i..m] + s[m..n];
    }
  }

  lemma AtU16(s: bytes, i: nat, n: u16)
    requires At(s, i, U16(n))
    ensures ReadU16(s, i) == n
  {
    assert s[i] == s[i..i + 2][0] && s[i + 1] == s[i..i + 2][1];
  }

  lemma AtU32(s: bytes, i: nat, n: u32)
    requires At(s, i, U32(n))
    ensures ReadU32(s, i) == n
  {
    AtSplit(s, i, U16(n / 0x1_0000), U16(n % 0x1_0000));
    AtU16(s, i, n / 0x1_0000);
    AtU16(s, i + 2, n % 0x1_0000);
  }

  lemma ReadU16At(s: bytes, i: nat)
    requires i + 2 <= |s|
    ensures At(s, i, U16(ReadU16(s, i)))
  {
    assert s[i..i + 2] == [s[i], s[i + 1]];
  }

  lemma ReadU32At(s: bytes, i: nat)
    requires i + 4 <= |s|
    ensures At(s, i, U32(ReadU32(s, i)))
  {
    ReadU16At(s, i);
    ReadU16At(s, i + 2);
    AtSplit(s, i, U16(ReadU16(s, i)), U16(ReadU16(s, i + 2)));
  }

  /** All chunks of a queue, joined. */
  function Concat(chunks: seq<bytes>): (r: bytes) {
    if chunks == [] then [] else chunks[0] + Concat(chunks[1..])
  }

  lemma {:induction false} ConcatAppend(a: seq<bytes>, b: seq<bytes>)
    ensures Concat(a + b) == Concat(a) + Concat(b)
  {
    if a == [] {
      assert a + b == b;
    } else {
      assert (a + b)[1..] == a[1..] + b;
      ConcatAppend(a[1..], b);
    }
  }

  lemma ConcatSnoc(a: seq<bytes>, x: bytes)
    ensures Concat(a + [x]) == Concat(a) + x
  {
    ConcatAppend(a, [x]);
    assert Concat([x]) == x + Concat([]);
  }
}
