/**
  The foreign primitives the derivation code calls but does not define: the
  BIP-39 mnemonic check and mnemonic-to-seed stretch, HMAC-SHA512 and its
  streaming write, and the keyring's standard hierarchical derivation. They
  are passed in as a record of functions; the only facts the model relies on
  are the ones their types state (a BIP-39 seed and an HMAC-SHA512 digest are
  64 bytes).
 */
module Primitives {
  import opened KeyringTypes

  /** A 64-byte value: a BIP-39 seed, or an HMAC-SHA512 output. */
  type Bytes64 = s: Bytes | |s| == 64 witness seq(64, _ => 0 as byte)

  datatype Primitives = Primitives(
    // the mnemonic passes the BIP-39 wordlist and checksum validation
    mnemonicValid: string -> bool,
    // BIP-39 "From mnemonic to seed" for (mnemonic, passphrase)
    mnemonicToSeed: (string, string) -> Bytes64,
    // the HMAC writer keyed with the first argument accepts the second
    hmacWriteOk: (Bytes, Bytes) -> bool,
    // HMAC-SHA512(key, message)
    hmacSha512: (Bytes, Bytes) -> Bytes64,
    // the keyring's standard derivation for (mnemonic, passphrase, hdPath, algo)
    stdDeriveKey: (string, string, string, SigningAlgo) -> Result<Bytes>
  )

  /** The bytes of an ASCII string, one byte per character. */
  function Ascii(s: string): (b: Bytes)
    requires forall i :: 0 <= i < |s| ==> s[i] as int < 0x80
    ensures |b| == |s|
    ensures forall i :: 0 <= i < |s| ==> b[i] as int == s[i] as int
  {
    seq(|s|, i requires 0 <= i < |s| => s[i] as int as byte)
  }

  /** The HMAC key of BIP-32 master key generation. */
  const BitcoinSeedKey: Bytes := Ascii("Bitcoin seed")

  /** bip39.NewSeedWithErrorChecking: the checksum is validated before the
      seed is stretched, and a failing mnemonic yields no seed. */
  function NewSeedWithErrorChecking(p: Primitives, mnemonic: string, passphrase: string): (r: Result<Bytes64>)
    ensures r.Ok? <==> p.mnemonicValid(mnemonic)
    ensures r.Err? ==> r.error == InvalidMnemonic
    ensures r.Ok? ==> r.value == p.mnemonicToSeed(mnemonic, passphrase)
  {
    if !p.mnemonicValid(mnemonic) then Err(InvalidMnemonic)
    else Ok(p.mnemonicToSeed(mnemonic, passphrase))
  }

  /** hmac.New(sha512.New, key), Write(message), Sum(nil): a failed write is
      propagated and no digest is produced. */
  function HmacSha512(p: Primitives, key: Bytes, message: Bytes): (r: Result<Bytes64>)
    ensures r.Ok? <==> p.hmacWriteOk(key, message)
    ensures r.Err? ==> r.error == HashWriteFailed
    ensures r.Ok? ==> r.value == p.hmacSha512(key, message)
  {
    if !p.hmacWriteOk(key, message) then Err(HashWriteFailed)
    else Ok(p.hmacSha512(key, message))
  }
}
