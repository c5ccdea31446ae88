/**
  A table view of the signing-algorithm support: each supported tag is bound
  to exactly one derivation strategy, and resolving any other tag fails with
  that tag. It is an independent reference for the dispatcher's switch.
 */
module Registry {
  import opened KeyringTypes
  import opened Primitives
  import opened Algorithm

  datatype Strategy =
    | StandardHd        // the keyring's hierarchical derivation along hdPath
    | EthereumMaster    // the BIP-32 master secret, hdPath ignored

  /** The registry: one entry per supported tag, in registration order. */
  const Entries: seq<(SigningAlgo, Strategy)> := [(EthSecp256k1, EthereumMaster), (Secp256k1, StandardHd)]

  /** The value of the first entry with key k, if any. */
  function Lookup<K(==), V>(entries: seq<(K, V)>, k: K): (r: Option<V>)
    ensures r.None? <==> forall i :: 0 <= i < |entries| ==> entries[i].0 != k
    ensures r.Some? ==> exists i :: 0 <= i < |entries| && entries[i] == (k, r.value) &&
                                    forall j :: 0 <= j < i ==> entries[j].0 != k
  {
    if |entries| == 0 then None
    else if entries[0].0 == k then Some(entries[0].1)
    else
      var r := Lookup(entries[1..], k);
      assert forall i :: 1 <= i < |entries| ==> entries[i] == entries[1..][i - 1];
      r
  }

  /** Resolve a tag to its strategy; unlisted tags are never defaulted. */
  function Resolve(algo: SigningAlgo): (r: Result<Strategy>)
    ensures r.Ok? <==> algo in SupportedAlgorithms
    ensures r.Err? ==> r.error == UnsupportedSigningAlgo(algo)
    ensures r == Ok(StandardHd) <==> algo == Secp256k1
    ensures r == Ok(EthereumMaster) <==> algo == EthSecp256k1
  {
    var found := Lookup(Entries, algo);
    if found.None? then
      assert Entries[0].0 != algo && Entries[1].0 != algo;
      Err(UnsupportedSigningAlgo(algo))
    else
      Ok(found.value)
  }

  /** Run one strategy. */
  function Run(s: Strategy, p: Primitives, mnemonic: string, passphrase: string, hdPath: string, algo: SigningAlgo): Result<Bytes>
  {
    match s
    case StandardHd => p.stdDeriveKey(mnemonic, passphrase, hdPath, algo)
    case EthereumMaster => DeriveSecp256k1(p, mnemonic, passphrase, hdPath)
  }

  /** The dispatcher behaves exactly as resolving the tag in the registry and
      running the strategy found. */
  lemma DeriveKeyFollowsRegistry(p: Primitives, mnemonic: string, passphrase: string, hdPath: string, algo: SigningAlgo)
    ensures DeriveKey(p, mnemonic, passphrase, hdPath, algo) ==
      match Resolve(algo)
      case Err(e) => Err(e)
      case Ok(s) => Run(s, p, mnemonic, passphrase, hdPath, algo)
  {
  }

  /** Every registry key is a supported tag and every supported tag is a
      registry key, listed in the same order. */
  lemma EntriesMatchSupportedAlgorithms()
    ensures SupportedAlgorithms == ["eth_secp256k1", "secp256k1"]
    ensures |Entries| == |SupportedAlgorithms|
    ensures forall i :: 0 <= i < |Entries| ==> Entries[i].0 == SupportedAlgorithms[i]
  {
  }
}
