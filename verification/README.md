# Ethermint signing-algorithm support, modelled in Dafny

This project models the part of Ethermint that plugs Ethereum-style keys into
the Cosmos SDK keyring (`crypto/algorithm.go`):

- the `eth_secp256k1` tag and the list of supported signing algorithms,
  `[eth_secp256k1, secp256k1]`;
- `EthSecp256k1Options`. These are the four keyring options that install the key
  builder, the derivation function, and the same algorithm list as both the
  general and the Ledger set;
- `DeriveKey`, the derivation dispatcher. `secp256k1` goes to the keyring's
  standard hierarchical derivation, `eth_secp256k1` goes to `DeriveSecp256k1`,
  and any other tag is rejected with that tag;
- `EthermintKeygenFunc`. It wraps raw bytes as a secp256k1 private key only when
  the tag is exactly `eth_secp256k1`;
- `DeriveSecp256k1`. It computes the BIP-39 seed with the checksum check,
  then HMAC-SHA512 keyed with `"Bitcoin seed"` (BIP-32 master key generation).
  It keeps the first 32 bytes (I_L), checks them as a secp256k1 scalar and
  re-serialises them. The chain code is discarded and the HD path argument is
  ignored.

Files:

- `types.dfy` (`KeyringTypes`): bytes, tags, the error taxonomy, the typed
  key and the result type.
- `primitives.dfy` (`Primitives`): the foreign primitives as a record of
  functions passed in as a parameter. These are the BIP-39 mnemonic check and
  seed, HMAC-SHA512 and its writer, and the keyring's standard derivation. The
  module also holds the two checked wrappers the derivation calls.
- `scalar.dfy` (`Secp256k1Scalar`): go-ethereum's `ToECDSA` and `FromECDSA`,
  reduced to their scalar behaviour. `ToECDSA` needs 32 bytes whose big-endian
  value lies in [1, n-1], where n is the secp256k1 group order of SEC 2,
  section 2.4.1. `FromECDSA` writes the scalar back as 32 big-endian bytes.
- `algorithm.dfy` (`Algorithm`): the tag list, the options, `DeriveKey`,
  `EthermintKeygenFunc` and `DeriveSecp256k1`.
- `registry.dfy` (`Registry`): a table from tag to derivation strategy. It is a
  reference definition, and a lemma proves the dispatcher's switch agrees with it.
- `properties.dfy` (`DerivationProperties`): lemmas that relate several calls.

The foreign primitives are parameters, so every result holds for any BIP-39,
HMAC and standard-derivation implementation. The model relies on two facts
about them, both stated by types: a seed and an HMAC-SHA512 digest are each
64 bytes long.

The two wrappers in `primitives.dfy` are the assumed interface of the library
calls, not proved behaviour:

- `NewSeedWithErrorChecking` stands for go-bip39's checked seed call. It yields
  the seed of (mnemonic, passphrase) when the mnemonic is valid, and the
  mnemonic error otherwise.
- `HmacSha512` stands for crypto/hmac's `New`, `Write` and `Sum`. It yields the
  digest when the write is accepted, and the write error otherwise.

What the derivation does with these results is proved in
`Algorithm.DeriveSecp256k1` and `DerivationProperties.InvalidMnemonicShortCircuits`.

One consequence is proved rather than assumed. Because `FromECDSA(ToECDSA(b)) == b`
for every valid 32-byte scalar, the "normalised" key that `DeriveSecp256k1`
returns is exactly I_L.

Observation: `secp256k1` appears in both advertised algorithm sets, and
`DeriveKey` dispatches it. But `EthermintKeygenFunc` rejects it with a
mismatch error (`DerivationProperties.StandardTagAdvertisedButNotConstructible`).
A keyring configured with these options therefore derives bytes for
`secp256k1` and then fails to build a key from them. The model keeps this
behaviour as written.

The failure of the HMAC step is named `HashWriteFailed`, after the step that
produces it. The code selects a derivation with a switch on the tag. The model
keeps that switch in `DeriveKey` and proves it equivalent to a tag-to-strategy
registry (`Registry.DeriveKeyFollowsRegistry`).

## Model

| member | source | states |
|---|---|---|
| `Algorithm.EthSecp256k1Options` | crypto/algorithm.go:31-37 | There are four options, in source order. The first installs `EthermintKeygenFunc` as the key builder. The second installs a derivation function that agrees with `DeriveKey` on every input. The third installs `SupportedAlgorithms` as the supported set, and the fourth installs the same list as the Ledger set. |
| `Algorithm.EthSecp256k1OptionsConfigure` | crypto/algorithm.go:31-37 | Applying the options to any keyring defaults has these effects. Both the supported and the Ledger set become `SupportedAlgorithms`. The key builder becomes `EthermintKeygenFunc`. The derivation function agrees with `DeriveKey` on every input. |
| `Algorithm.DeriveKey` | crypto/algorithm.go:40-49 | For `secp256k1` the result is exactly the standard derivation on the same mnemonic, passphrase, path and tag. For `eth_secp256k1` it is `DeriveSecp256k1`. For any tag outside the supported list it is the unsupported-algorithm error carrying that tag. |
| `Algorithm.EthermintKeygenFunc` | crypto/algorithm.go:53-59 | Succeeds if and only if the tag is `eth_secp256k1`, and then returns a key whose bytes are the input unchanged. Otherwise it fails with a mismatch naming the expected and the received tag. |
| `Algorithm.DeriveSecp256k1` | crypto/algorithm.go:61-84 | Succeeds if and only if three things hold: the mnemonic is valid, the HMAC writer accepts the seed, and I_L is a valid scalar. On success the key is exactly I_L, the first 32 bytes of HMAC-SHA512("Bitcoin seed", seed). An invalid mnemonic gives the mnemonic error, and a refused write gives the write error. Any other failure is a scalar error other than a length error. |
| `Secp256k1Scalar.ToECDSA` | crypto/algorithm.go:76-79 | Accepts exactly the 32-byte strings whose big-endian value is in [1, n-1], and returns that value. Rejections name the reason: wrong length first, then not below n, then zero. |
| `Secp256k1Scalar.FromECDSA` | crypto/algorithm.go:81 | Returns 32 bytes whose big-endian value is the key's scalar. These bytes are themselves a valid private key. |
| `Secp256k1Scalar.NormaliseIsIdentity` | crypto/algorithm.go:76-81 | For every valid private key, parsing and then re-serialising gives back the same bytes. |
| `Secp256k1Scalar.ParseOfSerialised` | crypto/algorithm.go:76-81 | For every scalar key, serialising and then parsing gives back the same key. |
| `Secp256k1Scalar.BigEndianInjective` | crypto/algorithm.go:76-81 | Two byte strings of the same length with the same big-endian value are equal. This is why the re-serialisation cannot change accepted bytes. |
| `Registry.Resolve` | crypto/algorithm.go:41-48 | A tag resolves if and only if it is in `SupportedAlgorithms`. `secp256k1` resolves to the standard strategy and only it does. `eth_secp256k1` resolves to the master-secret strategy and only it does. An unlisted tag fails with that tag and never gets a default. |
| `Registry.DeriveKeyFollowsRegistry` | crypto/algorithm.go:40-49 | For every input, `DeriveKey` gives the same result as resolving the tag in the registry and running the strategy found. |
| `Registry.EntriesMatchSupportedAlgorithms` | crypto/algorithm.go:25-28 | `SupportedAlgorithms` is exactly `["eth_secp256k1", "secp256k1"]`, and the registry's keys are the same tags in the same order. |
| `DerivationProperties.HdPathIgnored` | crypto/algorithm.go:61 | Any two HD paths give identical results from `DeriveSecp256k1`, and from `DeriveKey` with `eth_secp256k1`. |
| `DerivationProperties.ChainCodeDiscarded` | crypto/algorithm.go:74-76 | Two HMACs that agree on the first 32 bytes for this seed give the same derivation result. The last 32 bytes never matter. |
| `DerivationProperties.InvalidMnemonicShortCircuits` | crypto/algorithm.go:62-65 | An invalid mnemonic gives the mnemonic error, whatever the seed stretch, the HMAC and its writer do. |
| `DerivationProperties.DependsOnlyOnSeed` | crypto/algorithm.go:61-84 | Two inputs with the same mnemonic validity and the same seed derive the same result, whatever their paths. |
| `DerivationProperties.DerivedKeyIsValidScalar` | crypto/algorithm.go:76-83 | A key that `DeriveKey` returns for `eth_secp256k1` is a valid 32-byte secp256k1 scalar and equals I_L. |
| `DerivationProperties.StandardTagAdvertisedButNotConstructible` | crypto/algorithm.go:53-58 | `secp256k1` is in the supported list, and `DeriveKey` passes it to the standard derivation. `EthermintKeygenFunc` still rejects it with a mismatch. |
| `DerivationProperties.DeriveAndConstruct` | crypto/algorithm.go:33-34 | Chaining the installed derivation and key builder yields a key if and only if the tag is `eth_secp256k1` and the derivation succeeds. The key's bytes are I_L, which is a valid scalar. Unsupported tags fail with their tag. |

## Left out

- `cmd/ethermintd/main.go` as a whole. It is process bootstrap, CLI wiring, codec registration, app construction and genesis export, with no derivation logic.
- Internals of BIP-39 (wordlist, checksum, PBKDF2 seed stretching), SHA-512/HMAC, and the keyring's standard HD derivation. These are foreign library code, so they are parameters. Every BIP-39 validation failure is collapsed into the single mnemonic error.
- `Secp256k1Scalar.ToECDSA`: the public-key computation (scalar base multiplication) and its nil check are not modelled. For a scalar in [1, n-1] that check cannot fail, and curve arithmetic is out of scope.
- `Secp256k1Scalar.FromECDSA`: go-ethereum's `math.PaddedBigBytes(D, 32)` returns `D.Bytes()` unpadded when D has bit length 256, which is about half of all valid scalars, and left-pads with zeros otherwise. For every D < n both paths give the same 32 big-endian bytes, so the model uses one encoding (`ToBytes`) and does not model the two paths separately.
- Ethermint's `PrivKeySecp256k1` type and its methods (signing, public key). `crypto/secp256k1.go` is not part of this model, and the key is modelled as its raw bytes.
- The keyring's own defaults and how it uses the Ledger set. `KeyringOptions` holds only the four fields these options set.
- The exact text of error messages. Errors are a closed datatype that carries the tags involved.
- Known-answer values for a concrete mnemonic. They need real BIP-39 and HMAC-SHA512 implementations, which are parameters here.
- `SupportedAlgorithms` is an exported package-level slice in Go, and both supported sets share its backing array. The model makes it an immutable constant. Nothing in the modelled code changes the slice, so no modelled behaviour differs.
