/**
  Properties relating several calls of the signing-algorithm code: what the
  Ethereum-style derivation depends on and what it ignores, how errors short
  circuit, and what derivation followed by key construction yields.
 */
module DerivationProperties {
  import opened KeyringTypes
  import opened Primitives
  import opened Algorithm
  import Secp256k1Scalar

  /** The hdPath argument never affects the Ethereum-style derivation. */
  lemma HdPathIgnored(p: Primitives, mnemonic: string, passphrase: string, path1: string, path2: string)
    ensures DeriveSecp256k1(p, mnemonic, passphrase, path1) == DeriveSecp256k1(p, mnemonic, passphrase, path2)
    ensures DeriveKey(p, mnemonic, passphrase, path1, EthSecp256k1) == DeriveKey(p, mnemonic, passphrase, path2, EthSecp256k1)
  {
  }

  /** Only the first 32 bytes of the HMAC output matter: two HMACs that agree
      on I_L for this seed give the same result, whatever their chain codes. */
  lemma ChainCodeDiscarded(p: Primitives, hmac2: (Bytes, Bytes) -> Bytes64,
                           mnemonic: string, passphrase: string, hdPath: string)
    requires hmac2(BitcoinSeedKey, p.mnemonicToSeed(mnemonic, passphrase))[..32]
          == p.hmacSha512(BitcoinSeedKey, p.mnemonicToSeed(mnemonic, passphrase))[..32]
    ensures DeriveSecp256k1(p.(hmacSha512 := hmac2), mnemonic, passphrase, hdPath)
         == DeriveSecp256k1(p, mnemonic, passphrase, hdPath)
  {
    var q := p.(hmacSha512 := hmac2);
    assert MasterSecret(q, mnemonic, passphrase) == MasterSecret(p, mnemonic, passphrase);
  }

  /** A mnemonic that fails validation is reported before anything is hashed:
      the result does not depend on the seed stretch, the HMAC or its writer. */
  lemma InvalidMnemonicShortCircuits(p: Primitives, q: Primitives,
                                     mnemonic: string, passphrase: string, hdPath: string)
    requires !p.mnemonicValid(mnemonic)
    requires q.mnemonicValid == p.mnemonicValid
    ensures DeriveSecp256k1(q, mnemonic, passphrase, hdPath) == Err(InvalidMnemonic)
    ensures DeriveSecp256k1(p, mnemonic, passphrase, hdPath) == DeriveSecp256k1(q, mnemonic, passphrase, hdPath)
  {
  }

  /** The Ethereum-style result is a function of the seed of (mnemonic,
      passphrase): two inputs with the same valid mnemonic status and the
      same seed derive the same key, whatever their paths. */
  lemma DependsOnlyOnSeed(p: Primitives, m1: string, pp1: string, h1: string, m2: string, pp2: string, h2: string)
    requires p.mnemonicValid(m1) == p.mnemonicValid(m2)
    requires p.mnemonicToSeed(m1, pp1) == p.mnemonicToSeed(m2, pp2)
    ensures DeriveSecp256k1(p, m1, pp1, h1) == DeriveSecp256k1(p, m2, pp2, h2)
  {
    assert MasterSecret(p, m1, pp1) == MasterSecret(p, m2, pp2);
  }

  /** Every derived Ethereum key is a valid secp256k1 scalar of 32 bytes. */
  lemma DerivedKeyIsValidScalar(p: Primitives, mnemonic: string, passphrase: string, hdPath: string, algo: SigningAlgo)
    requires algo == EthSecp256k1
    requires DeriveKey(p, mnemonic, passphrase, hdPath, algo).Ok?
    ensures Secp256k1Scalar.ValidPrivateKey(DeriveKey(p, mnemonic, passphrase, hdPath, algo).value)
    ensures DeriveKey(p, mnemonic, passphrase, hdPath, algo).value == MasterSecret(p, mnemonic, passphrase)
  {
  }

  /** The standard tag is advertised in both supported sets and is dispatched,
      but EthermintKeygenFunc refuses to build a key for it. */
  lemma StandardTagAdvertisedButNotConstructible(bz: Bytes)
    ensures Secp256k1 in SupportedAlgorithms
    ensures forall p, m, pp, h :: DeriveKey(p, m, pp, h, Secp256k1) == p.stdDeriveKey(m, pp, h, Secp256k1)
    ensures EthermintKeygenFunc(bz, Secp256k1) == Err(SigningAlgoMismatch(EthSecp256k1, Secp256k1))
  {
  }

  /** Derivation followed by key construction, as the keyring runs the two
      functions the options install: a key comes out only for the Ethereum
      tag, and its bytes are the BIP-32 master secret. */
  function DeriveAndConstruct(p: Primitives, mnemonic: string, passphrase: string, hdPath: string, algo: SigningAlgo): (r: Result<PrivKey>)
    ensures r.Ok? <==> algo == EthSecp256k1 && DeriveSecp256k1(p, mnemonic, passphrase, hdPath).Ok?
    ensures r.Ok? ==> r.value.bz == MasterSecret(p, mnemonic, passphrase)
    ensures r.Ok? ==> Secp256k1Scalar.ValidPrivateKey(r.value.bz)
    ensures algo !in SupportedAlgorithms ==> r == Err(UnsupportedSigningAlgo(algo))
  {
    var bz :- DeriveKey(p, mnemonic, passphrase, hdPath, algo);
    EthermintKeygenFunc(bz, algo)
  }
}
