/**
 * secp256k1 signatures: the 64-byte R||S string form and the DER form
 * (ECDSA-Sig-Value, section 2.2.3 of RFC 3279) that `encoding/asn1` writes and
 * reads.  INTEGER contents follow section 8.3 of X.690 and lengths section 10.1.
 */
module Der {
  import opened Wrappers
  import opened Bytes

  const COMPONENT: nat := 32
  const TAG_INTEGER: Byte := 0x02
  const TAG_SEQUENCE: Byte := 0x30

  /** Contents octets of a non-negative INTEGER: a zero octet keeps the sign bit clear. */
  function IntegerContent(n: nat): Data {
    var b := BeBytes(n);
    if b == [] then [0] else if b[0] >= 0x80 then [0] + b else b
  }

  /** Length octets: short form below 128, otherwise the long form. */
  function LengthOctets(n: nat): Data
    requires n < TWO_TO_32
  {
    if n < 0x80 then [n] else
    Pow256Of4();
    BeBytesLength(n, 4);
    [0x80 + |BeBytes(n)|] + BeBytes(n)
  }

  function Tlv(tag: Byte, content: Data): Data
    requires |content| < TWO_TO_32
  {
    [tag] + LengthOctets(|content|) + content
  }

  lemma IntegerContentLength(n: nat)
    requires n < Pow256(COMPONENT)
    ensures 1 <= |IntegerContent(n)| <= COMPONENT + 1
  {
    BeBytesLength(n, COMPONENT);
  }

  /** `asn1.Marshal` of the pair (R, S), both below 2^256. */
  function Marshal(r: nat, s: nat): (der: Data)
    requires r < Pow256(COMPONENT) && s < Pow256(COMPONENT)
    ensures 8 <= |der| <= 72
    ensures der[0] == TAG_SEQUENCE && der[1] == |der| - 2
  {
    IntegerContentLength(r);
    IntegerContentLength(s);
    Tlv(TAG_SEQUENCE, Tlv(TAG_INTEGER, IntegerContent(r)) + Tlv(TAG_INTEGER, IntegerContent(s)))
  }

  /** At `at` stands a short-form INTEGER, not negative, of value `n`. */
  predicate IntegerAt(b: Data, at: nat, n: nat) {
    && at + 2 < |b| && b[at] == 0x02 && at + 2 + b[at + 1] <= |b|
    && b[at + 2] < 0x80 && BeNat(b[at + 2..at + 2 + b[at + 1]]) == n
  }

  lemma IntegerStandsAt(before: Data, n: nat, rest: Data)
    requires n < Pow256(COMPONENT)
    ensures 1 <= |IntegerContent(n)| <= COMPONENT + 1
    ensures var b := before + Tlv(TAG_INTEGER, IntegerContent(n)) + rest;
            IntegerAt(b, |before|, n) && b[|before| + 1] == |IntegerContent(n)|
  {
    IntegerContentLength(n);
    IntegerContentDenotes(n);
    IntegerContentPositive(n);
    var b, at, c := before + Tlv(TAG_INTEGER, IntegerContent(n)) + rest, |before|, IntegerContent(n);
    assert b[at + 2..at + 2 + |c|] == c;
  }

  /** How a written signature is laid out. */
  lemma MarshalLayout(r: nat, s: nat)
    requires r < Pow256(COMPONENT) && s < Pow256(COMPONENT)
    ensures 1 <= |IntegerContent(r)| <= 33 && 1 <= |IntegerContent(s)| <= 33
    ensures var tlvR, tlvS := Tlv(TAG_INTEGER, IntegerContent(r)), Tlv(TAG_INTEGER, IntegerContent(s));
            Marshal(r, s) == [0x30, |tlvR| + |tlvS|] + tlvR + tlvS && |tlvR| == 2 + |IntegerContent(r)|
            && |tlvS| == 2 + |IntegerContent(s)|
  {
    IntegerContentLength(r);
    IntegerContentLength(s);
  }

  /** The octets of a written signature: R in the first INTEGER, S in the second, nothing else. */
  lemma MarshalOctets(r: nat, s: nat)
    requires r < Pow256(COMPONENT) && s < Pow256(COMPONENT)
    ensures var der := Marshal(r, s);
            && der[0] == 0x30
            && IntegerAt(der, 2, r) && IntegerAt(der, 4 + der[3], s)
            && |der| == 6 + der[3] + der[5 + der[3]]
  {
    MarshalLayout(r, s);
    var der := Marshal(r, s);
    var tlvR, tlvS := Tlv(TAG_INTEGER, IntegerContent(r)), Tlv(TAG_INTEGER, IntegerContent(s));
    var head := [0x30, |tlvR| + |tlvS|];
    IntegerStandsAt(head, r, tlvS);
    assert der == (head + tlvR) + tlvS + [];
    IntegerStandsAt(head + tlvR, s, []);
    assert |head + tlvR| == 4 + der[3];
  }

  lemma IntegerContentPositive(n: nat)
    ensures IntegerContent(n)[0] < 0x80
  {
  }

  /** Long-form length octets: `k` octets left to read, `acc` read so far. */
  function ParseLongLength(b: Data, k: nat, acc: nat): Option<(nat, Data)> {
    if k == 0 then (if acc < 0x80 then None else Some((acc, b)))
    else if b == [] || acc >= 0x80_0000 || (acc == 0 && b[0] == 0) then None
    else ParseLongLength(b[1..], k - 1, acc * 256 + b[0])
  }

  function ParseLength(b: Data): Option<(nat, Data)> {
    if b == [] then None
    else if b[0] < 0x80 then Some((b[0], b[1..]))
    else if b[0] == 0x80 then None
    else ParseLongLength(b[1..], b[0] - 0x80, 0)
  }

  /** One tag-length-value element: its contents and what follows it. */
  function ParseTlv(tag: Byte, b: Data): Option<(Data, Data)> {
    if b == [] || b[0] != tag then None
    else match ParseLength(b[1..])
      case None => None
      case Some((n, rest)) => if n > |rest| then None else Some((rest[..n], rest[n..]))
  }

  /** `checkInteger`: contents are non-empty and minimal. */
  predicate MinimalInteger(c: Data) {
    && c != []
    && (|c| >= 2 ==> !(c[0] == 0 && c[1] < 0x80) && !(c[0] == 0xff && c[1] >= 0x80))
  }

  /** The magnitude `big.Int.Bytes` later exposes; contents are two's complement. */
  function Magnitude(c: Data): nat
    requires c != []
  {
    BeNatBound(c);
    if c[0] >= 0x80 then Pow256(|c|) - BeNat(c) else BeNat(c)
  }

  function ParseInteger(b: Data): Option<(nat, Data)> {
    match ParseTlv(TAG_INTEGER, b)
    case None => None
    case Some((c, rest)) => if MinimalInteger(c) then Some((Magnitude(c), rest)) else None
  }

  /** `asn1.Unmarshal` into (R, S): octets after S and after the SEQUENCE are ignored. */
  function Unmarshal(der: Data): Option<(nat, nat)> {
    match ParseTlv(TAG_SEQUENCE, der)
    case None => None
    case Some((body, _)) =>
      match ParseInteger(body)
      case None => None
      case Some((r, afterR)) =>
        match ParseInteger(afterR)
        case None => None
        case Some((s, _)) => Some((r, s))
  }

  /** `ConvertStrEncodedSignatureToDER`. */
  function StrToDer(sig: Data): Result<Data> {
    if |sig| != 2 * COMPONENT then Err("invalid secp256k1 signature length")
    else
      BeNatBound(sig[..COMPONENT]);
      BeNatBound(sig[COMPONENT..]);
      Ok(Marshal(BeNat(sig[..COMPONENT]), BeNat(sig[COMPONENT..])))
  }

  function FixedWidth(n: nat): Data {
    PadLeft(BeBytes(n), COMPONENT)[..COMPONENT]
  }

  /**
   * `ConvertDEREncodedSignatureToStr`.  Each `copy` into the 64-byte buffer takes the
   * leading 32 bytes; what a longer R leaves in the second half is overwritten by S.
   */
  function DerToStr(der: Data): Result<Data> {
    match Unmarshal(der)
    case None => Err("asn1")
    case Some((r, s)) => Ok(FixedWidth(r) + FixedWidth(s))
  }

  lemma ParseTlvOfTlv(tag: Byte, content: Data, rest: Data)
    requires |content| < 0x80
    ensures ParseTlv(tag, Tlv(tag, content) + rest) == Some((content, rest))
  {
    var b := Tlv(tag, content) + rest;
    assert b[1..] == [|content|] + (content + rest);
    assert b[1..][1..] == content + rest;
  }

  lemma IntegerContentDenotes(n: nat)
    ensures MinimalInteger(IntegerContent(n))
    ensures Magnitude(IntegerContent(n)) == n
  {
    BeNatOfBeBytes(n);
    var b := BeBytes(n);
    if b == [] {
      assert BeNat([0]) == 0;
    } else if b[0] >= 0x80 {
      BeNatIgnoresLeadingZeros(1, b);
      assert Zeros(1) == [0];
    }
  }

  /** The only contents octets the reader accepts for a non-negative value are the writer's. */
  lemma IntegerContentUnique(c: Data)
    requires MinimalInteger(c) && c[0] < 0x80
    ensures c == IntegerContent(Magnitude(c))
  {
    if c[0] == 0 {
      var b := c[1..];
      BeNatIgnoresLeadingZeros(1, b);
      assert c == Zeros(1) + b && c == [0] + b;
      BeBytesOfBeNat(b);
      assert Magnitude(c) == BeNat(b);
    } else {
      BeBytesOfBeNat(c);
      assert Magnitude(c) == BeNat(c);
    }
  }

  lemma ParseIntegerOfTlv(n: nat, rest: Data)
    requires n < Pow256(COMPONENT)
    ensures |IntegerContent(n)| < 0x80
    ensures ParseInteger(Tlv(TAG_INTEGER, IntegerContent(n)) + rest) == Some((n, rest))
  {
    IntegerContentLength(n);
    ParseTlvOfTlv(TAG_INTEGER, IntegerContent(n), rest);
    IntegerContentDenotes(n);
  }

  /** The DER reader inverts the DER writer, whatever follows the signature. */
  lemma UnmarshalOfMarshal(r: nat, s: nat, trailing: Data)
    requires r < Pow256(COMPONENT) && s < Pow256(COMPONENT)
    ensures Unmarshal(Marshal(r, s) + trailing) == Some((r, s))
  {
    IntegerContentLength(r);
    IntegerContentLength(s);
    var tlvR, tlvS := Tlv(TAG_INTEGER, IntegerContent(r)), Tlv(TAG_INTEGER, IntegerContent(s));
    ParseTlvOfTlv(TAG_SEQUENCE, tlvR + tlvS, trailing);
    ParseIntegerOfTlv(r, tlvS);
    ParseIntegerOfTlv(s, []);
    assert tlvS + [] == tlvS;
  }

  lemma FixedWidthOfBeNat(b: Data)
    requires |b| == COMPONENT
    ensures FixedWidth(BeNat(b)) == b
  {
    PadBeBytesOfBeNat(b);
  }

  lemma BeNatOfFixedWidth(n: nat)
    requires n < Pow256(COMPONENT)
    ensures |FixedWidth(n)| == COMPONENT && BeNat(FixedWidth(n)) == n
  {
    BeBytesLength(n, COMPONENT);
    BeNatOfPadLeft(BeBytes(n), COMPONENT);
    BeNatOfBeBytes(n);
    assert FixedWidth(n) == PadLeft(BeBytes(n), COMPONENT);
  }

  /** Whatever follows a canonical signature, its string form is the fixed-width R||S. */
  lemma DerToStrOfMarshal(r: nat, s: nat, trailing: Data)
    requires r < Pow256(COMPONENT) && s < Pow256(COMPONENT)
    ensures DerToStr(Marshal(r, s) + trailing) == Ok(FixedWidth(r) + FixedWidth(s))
  {
    UnmarshalOfMarshal(r, s, trailing);
  }

  /** String to DER and back is the identity on every 64-byte R||S. */
  lemma StrDerStr(sig: Data)
    requires |sig| == 2 * COMPONENT
    ensures StrToDer(sig).Ok? && DerToStr(StrToDer(sig).value) == Ok(sig)
  {
    var rb, sb := sig[..COMPONENT], sig[COMPONENT..];
    BeNatBound(rb);
    BeNatBound(sb);
    var der := Marshal(BeNat(rb), BeNat(sb));
    assert StrToDer(sig) == Ok(der);
    assert der + [] == der;
    DerToStrOfMarshal(BeNat(rb), BeNat(sb), []);
    FixedWidthOfBeNat(rb);
    FixedWidthOfBeNat(sb);
    assert sig == rb + sb;
  }

  lemma StrToDerOfFixedWidth(r: nat, s: nat)
    requires r < Pow256(COMPONENT) && s < Pow256(COMPONENT)
    ensures StrToDer(FixedWidth(r) + FixedWidth(s)) == Ok(Marshal(r, s))
  {
    BeNatOfFixedWidth(r);
    BeNatOfFixedWidth(s);
    var sig := FixedWidth(r) + FixedWidth(s);
    assert sig[..COMPONENT] == FixedWidth(r) && sig[COMPONENT..] == FixedWidth(s);
  }

  // ---------------------------------------------------------------------------
  // Canonical signatures, as the reader sees them
  // ---------------------------------------------------------------------------

  /** Contents octets of a component: minimal, not negative, below 2^256. */
  predicate ComponentContent(c: Data) {
    MinimalInteger(c) && c[0] < 0x80 && Magnitude(c) < Pow256(COMPONENT)
  }

  /** A SEQUENCE of two such INTEGERs, with nothing after S and nothing after the SEQUENCE. */
  predicate Canonical(der: Data) {
    match ParseTlv(TAG_SEQUENCE, der)
    case None => false
    case Some((body, trailing)) =>
      && trailing == []
      && match ParseTlv(TAG_INTEGER, body)
         case None => false
         case Some((r, afterR)) =>
           && ComponentContent(r)
           && match ParseTlv(TAG_INTEGER, afterR)
              case None => false
              case Some((s, afterS)) => ComponentContent(s) && afterS == []
  }

  lemma {:induction false} LongLengthIsLong(b: Data, k: nat, acc: nat)
    ensures ParseLongLength(b, k, acc).Some? ==> ParseLongLength(b, k, acc).value.0 >= 0x80
    decreases k
  {
    if k == 0 {
    } else if ParseLongLength(b, k, acc).Some? {
      LongLengthIsLong(b[1..], k - 1, acc * 256 + b[0]);
    }
  }

  /** The reader takes contents below 128 octets only in short form, as the writer writes them. */
  lemma TlvOfParseTlv(tag: Byte, b: Data)
    requires ParseTlv(tag, b).Some? && |ParseTlv(tag, b).value.0| < 0x80
    ensures var (content, rest) := ParseTlv(tag, b).value; b == Tlv(tag, content) + rest
  {
    var (content, rest) := ParseTlv(tag, b).value;
    var (n, tail) := ParseLength(b[1..]).value;
    if b[1] > 0x80 {
      LongLengthIsLong(b[1..][1..], b[1] - 0x80, 0);
    }
    assert b[1..] == [n] + tail && tail == content + rest;
    assert b == [tag] + ([n] + (content + rest));
  }

  /** Component contents are the ones the writer writes for their value, in at most 33 octets. */
  lemma ComponentIsWritten(c: Data)
    requires ComponentContent(c)
    ensures c == IntegerContent(Magnitude(c)) && |c| <= COMPONENT + 1
  {
    IntegerContentUnique(c);
    IntegerContentLength(Magnitude(c));
  }

  /** A canonical signature is what the writer produces for the R and S read from it. */
  lemma MarshalOfUnmarshal(der: Data)
    requires Canonical(der)
    ensures Unmarshal(der).Some?
    ensures var (r, s) := Unmarshal(der).value;
            r < Pow256(COMPONENT) && s < Pow256(COMPONENT) && der == Marshal(r, s)
  {
    var (body, _) := ParseTlv(TAG_SEQUENCE, der).value;
    var (r, afterR) := ParseTlv(TAG_INTEGER, body).value;
    var (s, _) := ParseTlv(TAG_INTEGER, afterR).value;
    ComponentIsWritten(r);
    ComponentIsWritten(s);
    TlvOfParseTlv(TAG_INTEGER, body);
    TlvOfParseTlv(TAG_INTEGER, afterR);
    assert afterR == Tlv(TAG_INTEGER, s);
    assert body == Tlv(TAG_INTEGER, r) + Tlv(TAG_INTEGER, s);
    TlvOfParseTlv(TAG_SEQUENCE, der);
    assert der == Tlv(TAG_SEQUENCE, body);
  }

  lemma ComponentContentOf(n: nat)
    requires n < Pow256(COMPONENT)
    ensures ComponentContent(IntegerContent(n)) && |IntegerContent(n)| <= COMPONENT + 1
  {
    IntegerContentDenotes(n);
    IntegerContentLength(n);
  }

  /** What the writer produces is canonical. */
  lemma MarshalIsCanonical(r: nat, s: nat)
    requires r < Pow256(COMPONENT) && s < Pow256(COMPONENT)
    ensures Canonical(Marshal(r, s))
  {
    ComponentContentOf(r);
    ComponentContentOf(s);
    var tlvR, tlvS := Tlv(TAG_INTEGER, IntegerContent(r)), Tlv(TAG_INTEGER, IntegerContent(s));
    assert Tlv(TAG_SEQUENCE, tlvR + tlvS) + [] == Marshal(r, s) && tlvS + [] == tlvS;
    ParseTlvOfTlv(TAG_SEQUENCE, tlvR + tlvS, []);
    ParseTlvOfTlv(TAG_INTEGER, IntegerContent(r), tlvS);
    ParseTlvOfTlv(TAG_INTEGER, IntegerContent(s), []);
  }

  /**
   * DER to string and back is the identity exactly on the canonical signatures;
   * trailing octets, negative or out-of-range components never survive it.
   */
  lemma DerStrDer(der: Data)
    ensures Canonical(der) <==> DerToStr(der).Ok? && StrToDer(DerToStr(der).value) == Ok(der)
  {
    if Canonical(der) {
      MarshalOfUnmarshal(der);
      var (r, s) := Unmarshal(der).value;
      StrToDerOfFixedWidth(r, s);
    }
    if DerToStr(der).Ok? && StrToDer(DerToStr(der).value) == Ok(der) {
      var sig := DerToStr(der).value;
      BeNatBound(sig[..COMPONENT]);
      BeNatBound(sig[COMPONENT..]);
      MarshalIsCanonical(BeNat(sig[..COMPONENT]), BeNat(sig[COMPONENT..]));
    }
  }

  // ---------------------------------------------------------------------------
  // Inputs the writer never produces
  // ---------------------------------------------------------------------------

  /** The two's-complement value of contents octets, octet by octet from the sign on. */
  function SignedValue(c: Data): int
    requires c != []
  {
    if |c| == 1 then (if c[0] < 0x80 then c[0] else c[0] - 256)
    else SignedValue(c[..|c| - 1]) * 256 + c[|c| - 1]
  }

  /** Of a negative component only the absolute value is kept. */
  lemma {:induction false} MagnitudeIsAbsolute(c: Data)
    requires c != []
    ensures Magnitude(c) == if c[0] < 0x80 then SignedValue(c) else -SignedValue(c)
  {
    if |c| == 1 {
      assert c[..0] == [] && BeNat(c) == c[0] && Pow256(1) == 256;
    } else {
      MagnitudeIsAbsolute(c[..|c| - 1]);
    }
  }

  /** Of a component of 2^256 or more only the 32 most significant octets are kept. */
  lemma LongComponentCut(n: nat)
    requires n >= Pow256(COMPONENT)
    ensures |BeBytes(n)| > COMPONENT && FixedWidth(n) == BeBytes(n)[..COMPONENT]
  {
    BeNatOfBeBytes(n);
    BeNatBound(BeBytes(n));
    if |BeBytes(n)| <= COMPONENT {
      Pow256Grows(|BeBytes(n)|, COMPONENT);
    }
  }

  lemma {:induction false} Pow256Grows(j: nat, k: nat)
    requires j <= k
    ensures Pow256(j) <= Pow256(k)
  {
    if j == k {
    } else {
      Pow256Grows(j, k - 1);
    }
  }

  /** Long-form lengths are the shortest: their octets are the digits of the length. */
  lemma {:induction false} LongLengthDigits(b: Data, k: nat, acc: nat)
    requires ParseLongLength(b, k, acc).Some?
    ensures var (n, rest) := ParseLongLength(b, k, acc).value;
            k <= |b| && BeBytes(n) == BeBytes(acc) + b[..k] && rest == b[k..]
    decreases k
  {
    if k == 0 {
      assert BeBytes(acc) + b[..0] == BeBytes(acc);
    } else {
      var next := acc * 256 + b[0];
      LongLengthDigits(b[1..], k - 1, next);
      assert next / 256 == acc && next % 256 == b[0];
      assert BeBytes(next) == BeBytes(acc) + [b[0]];
      assert b[..k] == [b[0]] + b[1..][..k - 1];
    }
  }

  /** The reader accepts one encoding of each length, the one the writer writes. */
  lemma LengthOfParseLength(b: Data)
    requires ParseLength(b).Some? && ParseLength(b).value.0 < TWO_TO_32
    ensures var (n, rest) := ParseLength(b).value; b == LengthOctets(n) + rest
  {
    var (n, rest) := ParseLength(b).value;
    if b[0] > 0x80 {
      LongLengthDigits(b[1..], b[0] - 0x80, 0);
      LongLengthIsLong(b[1..], b[0] - 0x80, 0);
      assert BeBytes(0) + b[1..][..b[0] - 0x80] == b[1..][..b[0] - 0x80];
      assert b[1..] == BeBytes(n) + rest;
    }
  }
}
