/** The primitives the ledger consumes but does not define, as uninterpreted
    functions: SHA-256, the transaction-id derivation (`SetID`), the coinbase
    test (`IsCoinbase`), input signing and signature checking, the coinbase
    constructor of the chain's revision, and two configuration values the
    chain refers to but whose values are not part of this model. */
module Platform {
  import opened Numeric
  import opened Transaction

  /** SHA-256: any function from byte strings to 32-byte digests. */
  type Hasher = f: seq<byte> -> seq<byte> | forall x :: |f(x)| == 32 witness ZeroHasher

  function ZeroHasher(x: seq<byte>): seq<byte> {
    seq(32, _ => 0)
  }

  datatype Env = Env(
    sha256: Hasher,
    /** `Transaction.SetID`: the id derived from the inputs and outputs. */
    txIdOf: (seq<TxInput>, seq<TxOutput>) -> seq<byte>,
    /** `Transaction.IsCoinbase`. */
    isCoinbase: Transaction -> bool,
    /** `TxInput.Verify(publicKey)`. */
    verify: (TxInput, PublicKey) -> bool,
    /** `TxInput.Sign(privateKey)`: the signature it stores in the input. */
    sign: (TxInput, PrivateKey) -> seq<byte>,
    /** `config.GenesisData` as bytes: the genesis payload and its miner address. */
    genesisData: seq<byte>,
    /** `config.CoinbaseSig`: the signature field of a coinbase input. */
    coinbaseSig: seq<byte>,
    /** The one-argument `transaction.CoinbaseTx(minerAddr)` that
        blockchain.go calls; that revision of the constructor is not part of
        this model. */
    coinbaseTx: Address -> Transaction)

  /** `SetID`: the transaction with its id recomputed from its contents. */
  function SetId(env: Env, tx: Transaction): (r: Transaction)
    ensures r.inputs == tx.inputs && r.outputs == tx.outputs
    ensures r.txId == env.txIdOf(tx.inputs, tx.outputs)
  {
    tx.(txId := env.txIdOf(tx.inputs, tx.outputs))
  }
}
