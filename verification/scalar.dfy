/**
  The secp256k1 private-scalar codec the Ethereum-style derivation relies on:
  go-ethereum's ToECDSA (parse 32 big-endian bytes and check the value lies in
  [1, n-1]) and FromECDSA (re-serialise the scalar as 32 big-endian bytes).
  Curve-point arithmetic is not modelled; only the scalar checks are.
 */
module Secp256k1Scalar {
  import opened KeyringTypes

  /** The order n of the secp256k1 base point (SEC 2, section 2.4.1). */
  const CurveOrder: nat := 0xFFFF_FFFF_FFFF_FFFF_FFFF_FFFF_FFFF_FFFE_BAAE_DCE6_AF48_A03B_BFD2_5E8C_D036_4141

  /** Private scalars are serialised in 256 / 8 bytes. */
  const ScalarBytes: nat := 32

  /** A parsed private key: a scalar in [1, n-1]. */
  datatype EcdsaPrivateKey = EcdsaPrivateKey(d: nat)

  type ScalarKey = k: EcdsaPrivateKey | 0 < k.d < CurveOrder witness EcdsaPrivateKey(1)

  function Pow256(k: nat): (r: nat)
    ensures r > 0
  {
    if k == 0 then 1 else 256 * Pow256(k - 1)
  }

  /** The unsigned big-endian value of a byte string (big.Int SetBytes). */
  function BigEndian(s: Bytes): nat
  {
    if |s| == 0 then 0 else BigEndian(s[..|s| - 1]) * 256 + s[|s| - 1] as nat
  }

  /** The byte strings ToECDSA accepts: exactly 32 bytes denoting a value in [1, n-1]. */
  predicate ValidPrivateKey(s: Bytes)
  {
    |s| == ScalarBytes && 0 < BigEndian(s) < CurveOrder
  }

  lemma {:induction false} BigEndianBound(s: Bytes)
    ensures BigEndian(s) < Pow256(|s|)
  {
    if |s| > 0 {
      var init := s[..|s| - 1];
      BigEndianBound(init);
      assert BigEndian(init) + 1 <= Pow256(|init|);
      calc {
        BigEndian(s);
        BigEndian(init) * 256 + s[|s| - 1] as nat;
      <  BigEndian(init) * 256 + 256;
      == (BigEndian(init) + 1) * 256;
      <= Pow256(|init|) * 256;
      }
    }
  }

  lemma DivModByte(q: nat, b: byte)
    ensures (q * 256 + b as nat) / 256 == q
    ensures (q * 256 + b as nat) % 256 == b as nat
  {
  }

  /** The fixed-width big-endian encoding of n in len bytes. For n below
      256^len this is what math.PaddedBigBytes(n, len) returns, whether it
      takes its unpadded path (bit length 8 * len) or its padding path.
      Decoding it gives back n. */
  function ToBytes(n: nat, len: nat): (s: Bytes)
    requires n < Pow256(len)
    ensures |s| == len
    ensures BigEndian(s) == n
  {
    if len == 0 then []
    else
      var init := ToBytes(n / 256, len - 1);
      var s := init + [(n % 256) as byte];
      assert s[..|s| - 1] == init;
      s
  }

  /** Big-endian decoding is injective on strings of one length. */
  lemma {:induction false} BigEndianInjective(s: Bytes, t: Bytes)
    requires |s| == |t|
    requires BigEndian(s) == BigEndian(t)
    ensures s == t
  {
    if |s| > 0 {
      var si, ti := s[..|s| - 1], t[..|t| - 1];
      DivModByte(BigEndian(si), s[|s| - 1]);
      DivModByte(BigEndian(ti), t[|t| - 1]);
      BigEndianInjective(si, ti);
      assert s == si + [s[|s| - 1]];
      assert t == ti + [t[|t| - 1]];
    }
  }

  lemma {:induction false} Pow256Add(a: nat, b: nat)
    ensures Pow256(a + b) == Pow256(a) * Pow256(b)
  {
    if a > 0 {
      Pow256Add(a - 1, b);
    }
  }

  lemma CurveOrderFits()
    ensures CurveOrder < Pow256(ScalarBytes)
  {
    assert Pow256(2) == 0x1_0000;
    Pow256Add(2, 2);
    Pow256Add(4, 4);
    Pow256Add(8, 8);
    Pow256Add(16, 16);
    assert Pow256(ScalarBytes) == 0x1_0000_0000_0000_0000_0000_0000_0000_0000_0000_0000_0000_0000_0000_0000_0000_0000;
  }

  /** go-ethereum's strict ToECDSA: the length is checked first, then the
      upper bound, then the lower bound. */
  function ToECDSA(s: Bytes): (r: Result<ScalarKey>)
    ensures r.Ok? <==> ValidPrivateKey(s)
    ensures r.Ok? ==> r.value.d == BigEndian(s)
    ensures r.Err? ==> r.error.InvalidPrivateKey?
    ensures r.Err? && |s| != ScalarBytes ==> r.error.reason == InvalidLength
    ensures r.Err? && |s| == ScalarBytes && BigEndian(s) >= CurveOrder ==> r.error.reason == NotBelowCurveOrder
    ensures r.Err? && |s| == ScalarBytes && BigEndian(s) == 0 ==> r.error.reason == ZeroOrNegative
  {
    if 8 * |s| != 8 * ScalarBytes then Err(InvalidPrivateKey(InvalidLength))
    else
      var d := BigEndian(s);
      if d >= CurveOrder then Err(InvalidPrivateKey(NotBelowCurveOrder))
      else if d == 0 then Err(InvalidPrivateKey(ZeroOrNegative))
      else Ok(EcdsaPrivateKey(d))
  }

  /** go-ethereum's FromECDSA: the scalar padded to 32 big-endian bytes. */
  function FromECDSA(k: ScalarKey): (s: Bytes)
    ensures |s| == ScalarBytes
    ensures BigEndian(s) == k.d
    ensures ValidPrivateKey(s)
  {
    CurveOrderFits();
    ToBytes(k.d, ScalarBytes)
  }

  /** Parsing then re-serialising a valid private key is the identity: the
      normalisation step never changes accepted bytes. */
  lemma {:induction false} NormaliseIsIdentity(s: Bytes)
    requires ValidPrivateKey(s)
    ensures ToECDSA(s).Ok?
    ensures FromECDSA(ToECDSA(s).value) == s
  {
    BigEndianInjective(FromECDSA(ToECDSA(s).value), s);
  }

  /** Serialising then parsing a key gives the same key back. */
  lemma ParseOfSerialised(k: ScalarKey)
    ensures ToECDSA(FromECDSA(k)) == Ok(k)
  {
  }
}
