/** `encodeChecksumEIP55`: hexadecimal addresses whose letter case carries a checksum. */
module Eip55 {
  import opened Wrappers
  import opened Bytes

  const HASH_SIZE: nat := 32

  /** The `i`th hexadecimal digit of a byte string, high half first. */
  function Nibble(b: Data, i: nat): (v: nat)
    requires i < 2 * |b|
    ensures v < 16
  {
    if i % 2 == 0 then b[i / 2] / 16 else b[i / 2] % 16
  }

  /** Lower-case ASCII hexadecimal digit. */
  function HexDigit(v: nat): Byte
    requires v < 16
  {
    if v < 10 then '0' as int + v else 'a' as int + v - 10
  }

  /** `hex.EncodeToString`. */
  function HexEncode(b: Data): (s: Data)
    ensures |s| == 2 * |b|
    ensures forall i :: 0 <= i < |s| ==> s[i] == HexDigit(Nibble(b, i))
  {
    seq(2 * |b|, i requires 0 <= i < 2 * |b| => HexDigit(Nibble(b, i)))
  }

  predicate IsUpper(c: Byte) {
    'A' as int <= c <= 'Z' as int
  }

  function ToLower(c: Byte): Byte {
    if IsUpper(c) then c + 32 else c
  }

  function FoldCase(s: Data): (t: Data)
    ensures |t| == |s|
    ensures forall i :: 0 <= i < |s| ==> t[i] == ToLower(s[i])
  {
    seq(|s|, i requires 0 <= i < |s| => ToLower(s[i]))
  }

  function DigitValue(c: Byte): Option<nat> {
    if '0' as int <= c <= '9' as int then Some(c - '0' as int)
    else if 'a' as int <= c <= 'f' as int then Some(c - 'a' as int + 10)
    else None
  }

  /** Decode lower-case hexadecimal. */
  function HexDecode(s: Data): Option<Data> {
    if s == [] then Some([])
    else if |s| == 1 then None
    else match (DigitValue(s[0]), DigitValue(s[1]), HexDecode(s[2..]))
      case (Some(h), Some(l), Some(rest)) => if h < 16 && l < 16 then Some([16 * h + l] + rest) else None
      case _ => None
  }

  lemma {:induction false} HexDecodeOfEncode(b: Data)
    ensures HexDecode(HexEncode(b)) == Some(b)
  {
    if b == [] {
    } else {
      var s := HexEncode(b);
      assert s[0] == HexDigit(b[0] / 16) && s[1] == HexDigit(b[0] % 16);
      assert s[2..] == HexEncode(b[1..]) by {
        forall i | 0 <= i < |s| - 2
          ensures s[2..][i] == HexEncode(b[1..])[i]
        {
          assert Nibble(b, i + 2) == Nibble(b[1..], i);
        }
      }
      HexDecodeOfEncode(b[1..]);
      assert b == [b[0]] + b[1..];
    }
  }

  /** A hexadecimal digit of the address that the checksum turns into a capital letter. */
  predicate Raised(hash: Data -> Data, address: Data, i: nat)
    requires i < 2 * |address| && |address| <= |hash(HexEncode(address))|
  {
    Nibble(address, i) >= 10 && Nibble(hash(HexEncode(address)), i) >= 8
  }

  /**
   * `s` encodes `address`: "0x", then the hexadecimal digits, upper case exactly at the
   * letters whose hash digit is 8 or more; folding the case leaves plain hexadecimal.
   */
  ghost predicate Encodes(hash: Data -> Data, address: Data, s: Data) {
    && |address| <= |hash(HexEncode(address))|
    && |s| == 2 + 2 * |address| && s[..2] == ['0' as int, 'x' as int]
    && FoldCase(s[2..]) == HexEncode(address)
    && forall i :: 0 <= i < 2 * |address| ==> (IsUpper(s[2 + i]) <==> Raised(hash, address, i))
  }

  /** `encodeChecksumEIP55`, with the Keccak-256 digest passed in. */
  method EncodeChecksumEip55(hash: Data -> Data, address: Data) returns (s: Data)
    requires |address| <= HASH_SIZE && |hash(HexEncode(address))| == HASH_SIZE
    ensures Encodes(hash, address, s)
  {
    var unchecksummed := HexEncode(address);
    var h := hash(unchecksummed);
    var n := |unchecksummed|;
    var result := new Byte[n](i requires 0 <= i < n => unchecksummed[i]);
    for i := 0 to n
      invariant forall j :: 0 <= j < i ==> ToLower(result[j]) == unchecksummed[j]
      invariant forall j :: 0 <= j < i ==> (IsUpper(result[j]) <==> Raised(hash, address, j))
      invariant forall j :: i <= j < n ==> result[j] == unchecksummed[j]
    {
      var hashByte := h[i / 2];
      if i % 2 == 0 {
        hashByte := hashByte / 16;
      } else {
        hashByte := hashByte % 16;
      }
      assert hashByte == Nibble(h, i) && result[i] == HexDigit(Nibble(address, i));
      if result[i] > '9' as int && hashByte > 7 {
        result[i] := result[i] - 32;
      }
    }
    s := ['0' as int, 'x' as int] + result[..];
    assert s[2..] == result[..];
  }

  /** Folding the case and decoding recovers the address, so comparing strings compares addresses. */
  lemma EncodingDecidesEquality(hash: Data -> Data, a: Data, s: Data, b: Data, t: Data)
    requires Encodes(hash, a, s) && Encodes(hash, b, t)
    ensures HexDecode(FoldCase(s[2..])) == Some(a)
    ensures s == t <==> a == b
  {
    HexDecodeOfEncode(a);
    HexDecodeOfEncode(b);
    if a == b {
      forall i | 0 <= i < |s|
        ensures s[i] == t[i]
      {
        if i < 2 {
          assert s[i] == s[..2][i] && t[i] == t[..2][i];
        } else {
          assert IsUpper(s[i]) <==> Raised(hash, a, i - 2);
          assert IsUpper(t[i]) <==> Raised(hash, b, i - 2);
          assert ToLower(s[2..][i - 2]) == ToLower(t[2..][i - 2]);
        }
      }
    }
  }
}
