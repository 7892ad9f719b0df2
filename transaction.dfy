/** Transactions: the input/output shape the chain and the UTXO index work on,
    and the older record shape (sources and records) of
    src/transaction/transaction.go with its coinbase constructor. */
module Transaction {
  import opened Numeric
  import opened Config

  type Address = seq<byte>
  type PublicKey = seq<byte>
  type PrivateKey = seq<byte>

  /** Spends output `txOutputIdx` of transaction `sourceTxId`; `sig` proves the
      right to do so. A coinbase input has an empty source and index -1. */
  datatype TxInput = TxInput(sourceTxId: seq<byte>, txOutputIdx: int, sig: seq<byte>)

  /** Pays `value` coins to `address`. */
  datatype TxOutput = TxOutput(value: int, address: Address)

  datatype Transaction = Transaction(txId: seq<byte>, inputs: seq<TxInput>, outputs: seq<TxOutput>)

  /** Identity of one transaction output: (source transaction id, output index).
      The source joins the two as `string(txid) + Itoa(idx)`; a pair cannot
      collide (see `StringKeyCollides` in module Validation). */
  datatype UtxoKey = UtxoKey(txId: seq<byte>, idx: int)

  function InputKey(i: TxInput): UtxoKey {
    UtxoKey(i.sourceTxId, i.txOutputIdx)
  }

  /** `TxOutput.BelongsTo`: the output pays this address. */
  predicate BelongsTo(out: TxOutput, address: Address) {
    out.address == address
  }

  /** Total value of a list of outputs, summed front to back. */
  function SumOutputs(outs: seq<TxOutput>): int {
    if outs == [] then 0 else SumOutputs(outs[..|outs| - 1]) + outs[|outs| - 1].value
  }

  lemma {:induction false} SumOutputsAppend(a: seq<TxOutput>, b: seq<TxOutput>)
    ensures SumOutputs(a + b) == SumOutputs(a) + SumOutputs(b)
  {
    if b != [] {
      SumOutputsAppend(a, b[..|b| - 1]);
      assert (a + b)[..|a + b| - 1] == a + b[..|b| - 1];
    } else {
      assert a + b == a;
    }
  }

  // ---- the older record shape of src/transaction/transaction.go ----

  /** A payment record: `value` coins to the owner of `pubKey`. */
  datatype TxRecord = TxRecord(value: int, pubKey: string)

  /** Spends record `recordIdx` of transaction `sourceTxId`. */
  datatype TxSource = TxSource(sourceTxId: seq<byte>, recordIdx: int, sig: string)

  /** `txId` is empty where the source leaves the id nil. */
  datatype RecordTransaction = RecordTransaction(txId: seq<byte>, sources: seq<TxSource>, records: seq<TxRecord>)

  function SumRecords(rs: seq<TxRecord>): int {
    if rs == [] then 0 else SumRecords(rs[..|rs| - 1]) + rs[|rs| - 1].value
  }

  /** `CoinbaseTx`: one source with no transaction behind it (empty id, index
      -1, signature field carrying `data`) and one record minting the mining
      reward to `toAddress`; the id is left unset. */
  function CoinbaseTx(toAddress: string, data: string): (r: RecordTransaction)
    ensures |r.sources| == 1 && |r.records| == 1
    ensures r.sources[0].sourceTxId == [] && r.sources[0].recordIdx == -1 && r.sources[0].sig == data
    ensures r.records[0].pubKey == toAddress
    ensures SumRecords(r.records) == MiningReward
    ensures r.txId == []
  {
    RecordTransaction([], [TxSource([], -1, data)], [TxRecord(MiningReward, toAddress)])
  }
}
