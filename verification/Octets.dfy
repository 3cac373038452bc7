/** Big-endian octet strings: int.from_bytes and int.to_bytes. */
module Octets {

  type Byte = n: int | 0 <= n < 256

  type Bytes = seq<Byte>

  /** int.from_bytes(bs, "big") */
  function Value(bs: Bytes): nat {
    if bs == [] then 0 else 256 * Value(bs[..|bs| - 1]) + bs[|bs| - 1]
  }

  /** The octets of n without leading zeros; none for zero. */
  function Minimal(n: nat): Bytes {
    if n == 0 then [] else Minimal(n / 256) + [n % 256]
  }

  function Pow256(k: nat): nat { if k == 0 then 1 else 256 * Pow256(k - 1) }

  /** int.bit_length */
  function BitLength(n: nat): nat { if n == 0 then 0 else 1 + BitLength(n / 2) }

  lemma {:induction false} ValueOfMinimal(n: nat)
    ensures Value(Minimal(n)) == n
  {
    if n > 0 {
      ValueOfMinimal(n / 256);
      assert Minimal(n)[..|Minimal(n)| - 1] == Minimal(n / 256);
    }
  }

  /** No shorter octet string holds n. */
  lemma {:induction false} MinimalIsShortest(n: nat, bs: Bytes)
    requires Value(bs) == n
    ensures |Minimal(n)| <= |bs|
  {
    if n > 0 {
      assert bs != [];
      var front := bs[..|bs| - 1];
      assert n / 256 == Value(front) && n % 256 == bs[|bs| - 1];
      MinimalIsShortest(n / 256, front);
    }
  }

  lemma {:induction false} ValueOfZeroFirst(bs: Bytes)
    ensures Value([0] + bs) == Value(bs)
  {
    if bs != [] {
      var n := |bs| - 1;
      assert ([0] + bs)[..n + 1] == [0] + bs[..n];
      ValueOfZeroFirst(bs[..n]);
    }
  }

  /** The number of octets tells the range of n. */
  lemma {:induction false} LengthBounds(n: nat, k: nat)
    ensures |Minimal(n)| <= k <==> n < Pow256(k)
  {
    if n == 0 {
      PowPositive(k);
    } else if k > 0 {
      LengthBounds(n / 256, k - 1);
      assert n < 256 * Pow256(k - 1) <==> n / 256 < Pow256(k - 1);
    }
  }

  lemma {:induction false} PowPositive(k: nat)
    ensures Pow256(k) > 0
  {
    if k > 0 {
      PowPositive(k - 1);
    }
  }

  lemma {:induction false} EightBits(n: nat)
    requires n > 0
    ensures if n < 256 then 1 <= BitLength(n) <= 8 else BitLength(n) == 8 + BitLength(n / 256)
  {
    var a := n / 2;
    var b := a / 2;
    var c := b / 2;
    var d := c / 2;
    var e := d / 2;
    var f := e / 2;
    var g := f / 2;
    var h := g / 2;
    assert h == n / 256;
    BitOff(n); BitOff(a); BitOff(b); BitOff(c); BitOff(d); BitOff(e); BitOff(f); BitOff(g);
  }

  lemma {:induction false} BitOff(n: nat)
    ensures BitLength(n) <= 1 + BitLength(n / 2)
    ensures n > 0 ==> BitLength(n) == 1 + BitLength(n / 2)
  {
  }

  /** to_bytes is asked for exactly the octets n needs. */
  lemma {:induction false} SizeIsMinimal(n: nat)
    ensures (BitLength(n) + 7) / 8 == |Minimal(n)|
  {
    if n > 0 {
      EightBits(n);
      SizeIsMinimal(n / 256);
    }
  }
}
