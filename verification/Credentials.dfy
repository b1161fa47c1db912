/**
 The comparison of user names and passwords, which looks at every octet of the longer
 string whatever it finds.
 */
module Credentials {
  import opened Bytes

  const WORD: nat := 0x1_0000_0000

  function OctetOr0(s: bytes, i: nat): byte {
    if i < |s| then s[i] else 0
  }

  function Max(a: nat, b: nat): nat {
    if a < b then b else a
  }

  /** Bitwise exclusive or and or, bit by bit from the lowest. */
  function Xor(a: nat, b: nat): nat {
    if a == 0 && b == 0 then 0 else 2 * Xor(a / 2, b / 2) + (if a % 2 == b % 2 then 0 else 1)
  }

  function Or(a: nat, b: nat): nat {
    if a == 0 && b == 0 then 0 else 2 * Or(a / 2, b / 2) + (if a % 2 == 0 && b % 2 == 0 then 0 else 1)
  }

  lemma {:induction false} XorZero(a: nat, b: nat)
    ensures Xor(a, b) == 0 <==> a == b
  {
    if a != 0 || b != 0 {
      XorZero(a / 2, b / 2);
    }
  }

  lemma {:induction false} OrZero(a: nat, b: nat)
    ensures Or(a, b) == 0 <==> a == 0 && b == 0
  {
    if a != 0 || b != 0 {
      OrZero(a / 2, b / 2);
    }
  }

  /** The strings agree octet for octet when the shorter is padded with zeros. */
  ghost predicate PaddedEqual(l: bytes, r: bytes) {
    forall i :: 0 <= i < Max(|l|, |r|) ==> OctetOr0(l, i) == OctetOr0(r, i)
  }

  /** Both lengths are cut to the 32 bits of an unsigned before they are compared. */
  method ConstantTimeEqual(l: bytes, r: bytes) returns (equal: bool)
    ensures equal <==> |l| % WORD == |r| % WORD && PaddedEqual(l, r)
  {
    var maxLength := Max(|l|, |r|);
    var difference := Xor(|l| % WORD, |r| % WORD);
    XorZero(|l| % WORD, |r| % WORD);
    for i := 0 to maxLength
      invariant difference == 0 <==>
                  |l| % WORD == |r| % WORD && forall j :: 0 <= j < i ==> OctetOr0(l, j) == OctetOr0(r, j)
    {
      var a := OctetOr0(l, i);
      var b := OctetOr0(r, i);
      XorZero(a, b);
      OrZero(difference, Xor(a, b));
      difference := Or(difference, Xor(a, b));
    }
    equal := difference == 0;
  }

  /** What the comparison computes agrees with equality on these two strings. */
  ghost predicate Right(l: bytes, r: bytes) {
    |l| % WORD == |r| % WORD && PaddedEqual(l, r) <==> l == r
  }

  lemma RightFor(l: bytes, r: bytes)
    requires |l| == |r| || |l| % WORD != |r| % WORD
    ensures Right(l, r)
  {
    if |l| == |r| && PaddedEqual(l, r) {
      assert forall i :: 0 <= i < |l| ==> l[i] == OctetOr0(l, i) == OctetOr0(r, i) == r[i];
    }
  }

  /** It is equality for strings of two given lengths exactly if these are equal or differ modulo 2^32. */
  lemma RightExactly(m: nat, n: nat)
    ensures (forall l: bytes, r: bytes :: |l| == m && |r| == n ==> Right(l, r)) <==> m == n || m % WORD != n % WORD
  {
    if m == n || m % WORD != n % WORD {
      forall l: bytes, r: bytes | |l| == m && |r| == n ensures Right(l, r) {
        RightFor(l, r);
      }
    } else {
      var l: bytes, r: bytes := seq(m, _ => 0), seq(n, _ => 0);
      assert PaddedEqual(l, r) && l != r;
      assert !Right(l, r);
    }
  }

  /** Below 4 GiB, and so for every RFC 1929 name or password, it is equality. */
  lemma PaddedIsEqual(l: bytes, r: bytes)
    requires |l| < WORD && |r| < WORD
    ensures |l| % WORD == |r| % WORD && PaddedEqual(l, r) <==> l == r
  {
    RightFor(l, r);
  }

  /** 4 GiB of zeros pass for the empty string. */
  lemma NotEqualityBeyond(l: bytes)
    requires |l| == WORD && forall i :: 0 <= i < |l| ==> l[i] == 0
    ensures |l| % WORD == 0 && PaddedEqual(l, []) && l != []
  {
  }
}
