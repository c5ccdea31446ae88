/**
  Shared vocabulary of the keyring interface that the Ethermint signing-algorithm
  code plugs into: bytes, signing-algorithm tags, the typed private key, the
  closed error taxonomy and a failure-compatible result type.
 */
module KeyringTypes {

  newtype byte = b: int | 0 <= b < 0x100

  type Bytes = seq<byte>

  /** A keyring signing-algorithm tag. In the source it is a named string type,
      compared by exact value; the set of tags is not closed by the type. */
  type SigningAlgo = string

  /** The keyring's standard (hierarchical) secp256k1 tag. */
  const Secp256k1: SigningAlgo := "secp256k1"

  /** Why a 32-byte candidate is not a secp256k1 private scalar. */
  datatype ScalarError =
    | InvalidLength         // not exactly 256 bits
    | NotBelowCurveOrder    // big-endian value >= n
    | ZeroOrNegative        // big-endian value == 0

  /** Closed error taxonomy; each error carries the tags that explain it. */
  datatype Error =
    | UnsupportedSigningAlgo(algo: SigningAlgo)
    | SigningAlgoMismatch(expected: SigningAlgo, got: SigningAlgo)
    | InvalidMnemonic
    | HashWriteFailed
    | InvalidPrivateKey(reason: ScalarError)

  /** A typed private key. The only key type built here is Ethermint's
      secp256k1 key, which is its raw scalar bytes and nothing else. */
  datatype PrivKey = PrivKeySecp256k1(bz: Bytes)

  datatype Option<+T> = None | Some(value: T)

  datatype Result<+T> = Ok(value: T) | Err(error: Error) {

    predicate IsFailure() {
      Err?
    }

    function PropagateFailure<U>(): Result<U>
      requires Err?
    {
      Err(error)
    }

    function Extract(): T
      requires Ok?
    {
      value
    }
  }
}
