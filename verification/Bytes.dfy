/**
 * Byte strings and big-endian naturals: `big.Int.SetBytes`, `big.Int.Bytes`,
 * `padToLeft` and `binary.BigEndian`.
 */
module Bytes {
  type Byte = x: int | 0 <= x < 256

  type Data = seq<Byte>

  const TWO_TO_32: nat := 0x1_0000_0000

  function Pow256(k: nat): nat {
    if k == 0 then 1 else 256 * Pow256(k - 1)
  }

  /** `big.Int.SetBytes`: the natural number a big-endian byte string denotes. */
  function BeNat(b: Data): nat {
    if b == [] then 0 else BeNat(b[..|b| - 1]) * 256 + b[|b| - 1]
  }

  /** `big.Int.Bytes`: the shortest big-endian byte string, empty for zero. */
  function BeBytes(n: nat): Data {
    if n == 0 then [] else BeBytes(n / 256) + [n % 256]
  }

  function Zeros(k: nat): (z: Data)
    ensures |z| == k
    ensures forall i :: 0 <= i < k ==> z[i] == 0
  {
    seq(k, i => 0)
  }

  /** `padToLeft`: a string already of the wanted size or longer is returned as it is. */
  function PadLeft(b: Data, size: nat): Data {
    if |b| >= size then b else Zeros(size - |b|) + b
  }

  lemma {:induction false} BeNatOfBeBytes(n: nat)
    ensures BeNat(BeBytes(n)) == n
    ensures n != 0 ==> BeBytes(n) != [] && BeBytes(n)[0] != 0
  {
    if n == 0 {
    } else {
      BeNatOfBeBytes(n / 256);
      assert BeBytes(n)[..|BeBytes(n)| - 1] == BeBytes(n / 256);
    }
  }

  lemma {:induction false} BeNatBound(b: Data)
    ensures BeNat(b) < Pow256(|b|)
  {
    if b == [] {
    } else {
      BeNatBound(b[..|b| - 1]);
    }
  }

  lemma {:induction false} BeBytesLength(n: nat, k: nat)
    requires n < Pow256(k)
    ensures |BeBytes(n)| <= k
  {
    if n == 0 {
    } else {
      assert k != 0;
      BeBytesLength(n / 256, k - 1);
    }
  }

  /** Stripping leading zeros and padding them back is the identity on fixed-width strings. */
  lemma {:induction false} PadBeBytesOfBeNat(b: Data)
    ensures PadLeft(BeBytes(BeNat(b)), |b|) == b
  {
    if b == [] {
    } else {
      var c, x := b[..|b| - 1], b[|b| - 1];
      PadBeBytesOfBeNat(c);
      BeNatBound(c);
      BeBytesLength(BeNat(c), |c|);
      assert b == c + [x];
      if BeNat(b) == 0 {
        assert Zeros(|c|) == c;
      } else {
        assert BeBytes(BeNat(b)) == BeBytes(BeNat(c)) + [x];
      }
    }
  }

  /** A string without a leading zero is the shortest one for its value. */
  lemma {:induction false} BeBytesOfBeNat(b: Data)
    requires b != [] ==> b[0] != 0
    ensures BeBytes(BeNat(b)) == b
    ensures b != [] ==> BeNat(b) != 0
  {
    if b == [] {
    } else {
      var c, x := b[..|b| - 1], b[|b| - 1];
      BeBytesOfBeNat(c);
      assert b == c + [x];
      var n := BeNat(c);
      assert BeNat(b) == n * 256 + x;
      assert (n * 256 + x) / 256 == n && (n * 256 + x) % 256 == x;
    }
  }

  lemma {:induction false} BeNatIgnoresLeadingZeros(k: nat, b: Data)
    ensures BeNat(Zeros(k) + b) == BeNat(b)
  {
    var z := Zeros(k);
    if b != [] {
      assert (z + b)[..|z + b| - 1] == z + b[..|b| - 1];
      BeNatIgnoresLeadingZeros(k, b[..|b| - 1]);
    } else if k != 0 {
      assert (z + b)[..|z + b| - 1] == Zeros(k - 1) + b;
      BeNatIgnoresLeadingZeros(k - 1, b);
    } else {
      assert z + b == b;
    }
  }

  lemma BeNatOfPadLeft(b: Data, size: nat)
    ensures BeNat(PadLeft(b, size)) == BeNat(b)
  {
    if |b| < size {
      BeNatIgnoresLeadingZeros(size - |b|, b);
    }
  }

  lemma Pow256Of4()
    ensures Pow256(4) == TWO_TO_32
  {
    assert Pow256(1) == 256 && Pow256(2) == 65536;
  }

  /** `binary.BigEndian.PutUint32` after the conversion `uint32(len)`, which wraps. */
  function PutUint32(n: nat): (b: Data)
    ensures |b| == 4
    ensures BeNat(b) == n % TWO_TO_32
  {
    var m := n % TWO_TO_32;
    Pow256Of4();
    BeBytesLength(m, 4);
    BeNatOfBeBytes(m);
    BeNatOfPadLeft(BeBytes(m), 4);
    PadLeft(BeBytes(m), 4)
  }
}
