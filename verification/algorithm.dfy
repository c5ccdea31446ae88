/**
  Ethermint's signing-algorithm support for the keyring: the supported tag
  list, the keyring options that install it, the derivation dispatcher, the
  key-construction validator, and the Ethereum-style derivation that takes the
  BIP-32 master secret of a BIP-39 seed as the private key.
 */
module Algorithm {
  import opened KeyringTypes
  import opened Primitives
  import Secp256k1Scalar

  /** The ECDSA secp256k1 tag used on Ethereum. */
  const EthSecp256k1: SigningAlgo := "eth_secp256k1"

  /** The tags advertised to the keyring, in registration order. */
  const SupportedAlgorithms: seq<SigningAlgo> := [EthSecp256k1, Secp256k1]

  // ---------------------------------------------------------------------
  // Keyring options
  // ---------------------------------------------------------------------

  type KeygenFunc = (Bytes, SigningAlgo) -> Result<PrivKey>
  type DeriveFunc = (string, string, string, SigningAlgo) -> Result<Bytes>

  /** One keyring option: a setter for one field of the keyring's options. */
  datatype KeybaseOption =
    | WithKeygenFunc(keygen: KeygenFunc)
    | WithDeriveFunc(derive: DeriveFunc)
    | WithSupportedAlgos(algos: seq<SigningAlgo>)
    | WithSupportedAlgosLedger(ledgerAlgos: seq<SigningAlgo>)

  /** The keyring fields the options above set. */
  datatype KeyringOptions = KeyringOptions(
    supportedAlgos: seq<SigningAlgo>,
    supportedAlgosLedger: seq<SigningAlgo>,
    keygenFunc: KeygenFunc,
    deriveFunc: DeriveFunc
  )

  function ApplyOption(o: KeybaseOption, opts: KeyringOptions): KeyringOptions
  {
    match o
    case WithKeygenFunc(f) => opts.(keygenFunc := f)
    case WithDeriveFunc(f) => opts.(deriveFunc := f)
    case WithSupportedAlgos(a) => opts.(supportedAlgos := a)
    case WithSupportedAlgosLedger(a) => opts.(supportedAlgosLedger := a)
  }

  /** The keyring applies its options in order, each overriding the field it sets. */
  function ApplyOptions(os: seq<KeybaseOption>, opts: KeyringOptions): KeyringOptions
  {
    if |os| == 0 then opts else ApplyOptions(os[1..], ApplyOption(os[0], opts))
  }

  /** The options Ethermint hands to the keyring. */
  function EthSecp256k1Options(p: Primitives): (os: seq<KeybaseOption>)
    ensures |os| == 4
    ensures os[0] == WithKeygenFunc(EthermintKeygenFunc)
    ensures os[1].WithDeriveFunc?
    ensures forall m, pp, h, a :: os[1].derive(m, pp, h, a) == DeriveKey(p, m, pp, h, a)
    ensures os[2] == WithSupportedAlgos(SupportedAlgorithms)
    ensures os[3] == WithSupportedAlgosLedger(SupportedAlgorithms)
  {
    [ WithKeygenFunc(EthermintKeygenFunc),
      WithDeriveFunc((mnemonic, passphrase, hdPath, algo) => DeriveKey(p, mnemonic, passphrase, hdPath, algo)),
      WithSupportedAlgos(SupportedAlgorithms),
      WithSupportedAlgosLedger(SupportedAlgorithms) ]
  }

  /** Whatever the keyring's defaults, after the Ethermint options it
      advertises the same list as both the general and the Ledger set, builds
      keys with EthermintKeygenFunc and derives with DeriveKey. */
  lemma {:induction false} EthSecp256k1OptionsConfigure(p: Primitives, defaults: KeyringOptions)
    ensures ApplyOptions(EthSecp256k1Options(p), defaults).supportedAlgos == SupportedAlgorithms
    ensures ApplyOptions(EthSecp256k1Options(p), defaults).supportedAlgosLedger == SupportedAlgorithms
    ensures ApplyOptions(EthSecp256k1Options(p), defaults).keygenFunc == EthermintKeygenFunc
    ensures forall m, pp, h, a ::
      ApplyOptions(EthSecp256k1Options(p), defaults).deriveFunc(m, pp, h, a) == DeriveKey(p, m, pp, h, a)
  {
    var os := EthSecp256k1Options(p);
    var o1 := ApplyOption(os[0], defaults);
    var o2 := ApplyOption(os[1], o1);
    var o3 := ApplyOption(os[2], o2);
    var o4 := ApplyOption(os[3], o3);
    assert ApplyOptions(os[4..], o4) == o4;
    assert ApplyOptions(os[3..], o3) == o4 by { assert os[3..][1..] == os[4..]; }
    assert ApplyOptions(os[2..], o2) == o4 by { assert os[2..][1..] == os[3..]; }
    assert ApplyOptions(os[1..], o1) == o4 by { assert os[1..][1..] == os[2..]; }
    assert ApplyOptions(os, defaults) == o4;
  }

  // ---------------------------------------------------------------------
  // Derivation
  // ---------------------------------------------------------------------

  /** I_L of BIP-32 master key generation over the BIP-39 seed of
      (mnemonic, passphrase): the first half of HMAC-SHA512("Bitcoin seed", seed). */
  function MasterSecret(p: Primitives, mnemonic: string, passphrase: string): Bytes
  {
    p.hmacSha512(BitcoinSeedKey, p.mnemonicToSeed(mnemonic, passphrase))[..32]
  }

  /** Whether the HMAC writer accepts the seed of (mnemonic, passphrase). */
  predicate SeedHashable(p: Primitives, mnemonic: string, passphrase: string)
  {
    p.hmacWriteOk(BitcoinSeedKey, p.mnemonicToSeed(mnemonic, passphrase))
  }

  /** Ethereum-style derivation: the private key is the BIP-32 master secret
      itself; no path is derived and hdPath has no effect. */
  function DeriveSecp256k1(p: Primitives, mnemonic: string, passphrase: string, hdPath: string): (r: Result<Bytes>)
    ensures r.Ok? <==>
      p.mnemonicValid(mnemonic) && SeedHashable(p, mnemonic, passphrase)
      && Secp256k1Scalar.ValidPrivateKey(MasterSecret(p, mnemonic, passphrase))
    ensures r.Ok? ==> r.value == MasterSecret(p, mnemonic, passphrase)
    ensures !p.mnemonicValid(mnemonic) ==> r == Err(InvalidMnemonic)
    ensures p.mnemonicValid(mnemonic) && !SeedHashable(p, mnemonic, passphrase) ==> r == Err(HashWriteFailed)
    ensures r.Err? && p.mnemonicValid(mnemonic) && SeedHashable(p, mnemonic, passphrase) ==>
      r.error.InvalidPrivateKey? && r.error.reason != InvalidLength
  {
    var seed :- NewSeedWithErrorChecking(p, mnemonic, passphrase);
    var sum :- HmacSha512(p, BitcoinSeedKey, seed);
    var priv :- Secp256k1Scalar.ToECDSA(sum[..32]);
    Secp256k1Scalar.NormaliseIsIdentity(sum[..32]);
    Ok(Secp256k1Scalar.FromECDSA(priv))
  }

  /** The derivation dispatcher: the standard tag goes to the keyring's own
      derivation unchanged, the Ethereum tag to DeriveSecp256k1, and every
      other tag is rejected with that tag. */
  function DeriveKey(p: Primitives, mnemonic: string, passphrase: string, hdPath: string, algo: SigningAlgo): (r: Result<Bytes>)
    ensures algo == Secp256k1 ==> r == p.stdDeriveKey(mnemonic, passphrase, hdPath, algo)
    ensures algo == EthSecp256k1 ==> r == DeriveSecp256k1(p, mnemonic, passphrase, hdPath)
    ensures algo !in SupportedAlgorithms ==> r == Err(UnsupportedSigningAlgo(algo))
  {
    if algo == Secp256k1 then p.stdDeriveKey(mnemonic, passphrase, hdPath, algo)
    else if algo == EthSecp256k1 then DeriveSecp256k1(p, mnemonic, passphrase, hdPath)
    else Err(UnsupportedSigningAlgo(algo))
  }

  /** Key construction: only the Ethereum tag is accepted, and the bytes are
      wrapped unchanged. */
  function EthermintKeygenFunc(bz: Bytes, algo: SigningAlgo): (r: Result<PrivKey>)
    ensures r.Ok? <==> algo == EthSecp256k1
    ensures r.Ok? ==> r.value.bz == bz
    ensures r.Err? ==> r.error == SigningAlgoMismatch(EthSecp256k1, algo)
  {
    if algo != EthSecp256k1 then Err(SigningAlgoMismatch(EthSecp256k1, algo))
    else Ok(PrivKeySecp256k1(bz))
  }
}
