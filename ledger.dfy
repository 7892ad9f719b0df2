/** The read-only chain operations of src/blockchain/blockchain.go: the walk
    that finds an address's unspent outputs, the balance, the spending plan and
    the construction of a payment. Each takes the chain as the sequence of
    blocks the store's iterator yields, tip first; the walk stops after the
    first block whose previous hash is empty (genesis). */
module Ledger {
  import opened Numeric
  import opened Transaction
  import opened Platform
  import opened Blocks
  import opened Utxo
  import opened Wrappers

  // ---- FindUnspentTransactions ----

  /** Output `idx` of `tx`, found unspent by the walk. The source returns only
      `tx`, once for every such output. */
  datatype OwnedOutput = OwnedOutput(tx: Transaction, idx: int)

  /** The transactions of a list of owned outputs, in order. */
  function Txs(os: seq<OwnedOutput>): (r: seq<Transaction>)
    ensures |r| == |os|
    ensures forall i :: 0 <= i < |os| ==> r[i] == os[i].tx
  {
    if os == [] then [] else Txs(os[..|os| - 1]) + [os[|os| - 1].tx]
  }

  /** The outputs among the first `k` of `tx` that pay `address` and whose key
      is not in `spent`, in output order. */
  function OwnedUnspent(tx: Transaction, address: Address, spent: set<UtxoKey>, k: nat): seq<OwnedOutput>
    requires k <= |tx.outputs|
  {
    if k == 0 then []
    else
      OwnedUnspent(tx, address, spent, k - 1)
      + (if UtxoKey(tx.txId, k - 1) !in spent && BelongsTo(tx.outputs[k - 1], address)
         then [OwnedOutput(tx, k - 1)] else [])
  }

  /** The keys the first `m` inputs mark spent: those whose signature verifies
      under `pk`. */
  function SpentKeys(env: Env, ins: seq<TxInput>, pk: PublicKey, m: nat): set<UtxoKey>
    requires m <= |ins|
  {
    if m == 0 then {}
    else SpentKeys(env, ins, pk, m - 1) + (if env.verify(ins[m - 1], pk) then {InputKey(ins[m - 1])} else {})
  }

  /** The keys a transaction marks spent; a coinbase transaction marks none. */
  function SpentBy(env: Env, tx: Transaction, pk: PublicKey): set<UtxoKey> {
    if env.isCoinbase(tx) then {} else SpentKeys(env, tx.inputs, pk, |tx.inputs|)
  }

  /** The walk, resumed at transaction `j` of block `i` with the keys seen
      spent so far and the outputs found so far. A transaction's outputs are
      checked against the keys spent by the blocks after it (visited earlier)
      and by the transactions before it in its block; then its own inputs are
      marked spent. */
  function Walk(env: Env, chain: seq<Block>, address: Address, pk: PublicKey,
                i: nat, j: nat, spent: set<UtxoKey>, acc: seq<OwnedOutput>): seq<OwnedOutput>
    requires i < |chain| ==> j <= |chain[i].txs|
    decreases |chain| - i, if i < |chain| then |chain[i].txs| - j else 0
  {
    if i >= |chain| then acc
    else if j < |chain[i].txs| then
      var tx := chain[i].txs[j];
      Walk(env, chain, address, pk, i, j + 1, spent + SpentBy(env, tx, pk),
           acc + OwnedUnspent(tx, address, spent, |tx.outputs|))
    else if chain[i].prevHash == [] then acc
    else Walk(env, chain, address, pk, i + 1, 0, spent, acc)
  }

  /** Every output the walk finds unspent for `address` (signing with `pk`). */
  function UnspentOutputs(env: Env, chain: seq<Block>, address: Address, pk: PublicKey): seq<OwnedOutput> {
    Walk(env, chain, address, pk, 0, 0, {}, [])
  }

  /** `FindUnspentTransactions`: a transaction once per unspent output of it
      that pays `address`. */
  method FindUnspentTransactions(env: Env, chain: seq<Block>, address: Address, pk: PublicKey)
    returns (unspentTxs: seq<Transaction>)
    ensures unspentTxs == Txs(UnspentOutputs(env, chain, address, pk))
  {
    unspentTxs := [];
    ghost var found: seq<OwnedOutput> := [];
    var spent: set<UtxoKey> := {};
    var i := 0;
    while i < |chain|
      invariant 0 <= i <= |chain|
      invariant unspentTxs == Txs(found)
      invariant Walk(env, chain, address, pk, i, 0, spent, found) == UnspentOutputs(env, chain, address, pk)
    {
      var block := chain[i];
      var j := 0;
      while j < |block.txs|
        invariant 0 <= j <= |block.txs|
        invariant unspentTxs == Txs(found)
        invariant Walk(env, chain, address, pk, i, j, spent, found) == UnspentOutputs(env, chain, address, pk)
      {
        var tx := block.txs[j];
        var txs, os := CollectOwned(tx, address, spent);
        var marked := MarkSpent(env, tx, pk, spent);
        TxsAppend(found, os);
        unspentTxs := unspentTxs + txs;
        found := found + os;
        spent := marked;
        j := j + 1;
      }
      if block.prevHash == [] {
        return;
      }
      i := i + 1;
    }
  }

  /** The output loop for one transaction: a copy of `tx` per unspent output
      paying `address`. */
  method CollectOwned(tx: Transaction, address: Address, spent: set<UtxoKey>)
    returns (txs: seq<Transaction>, ghost os: seq<OwnedOutput>)
    ensures os == OwnedUnspent(tx, address, spent, |tx.outputs|)
    ensures txs == Txs(os)
  {
    txs, os := [], [];
    var k := 0;
    while k < |tx.outputs|
      invariant 0 <= k <= |tx.outputs|
      invariant os == OwnedUnspent(tx, address, spent, k)
      invariant txs == Txs(os)
    {
      if UtxoKey(tx.txId, k) !in spent && BelongsTo(tx.outputs[k], address) {
        txs := txs + [tx];
        os := os + [OwnedOutput(tx, k)];
        assert os[..|os| - 1] == OwnedUnspent(tx, address, spent, k);
      }
      k := k + 1;
    }
  }

  /** The input loop for one transaction: unless it is coinbase, every input
      that verifies under `pk` marks its key spent. */
  method MarkSpent(env: Env, tx: Transaction, pk: PublicKey, spent: set<UtxoKey>) returns (marked: set<UtxoKey>)
    ensures marked == spent + SpentBy(env, tx, pk)
  {
    marked := spent;
    if !env.isCoinbase(tx) {
      var m := 0;
      while m < |tx.inputs|
        invariant 0 <= m <= |tx.inputs|
        invariant marked == spent + SpentKeys(env, tx.inputs, pk, m)
      {
        if env.verify(tx.inputs[m], pk) {
          marked := marked + {InputKey(tx.inputs[m])};
        }
        m := m + 1;
      }
    }
  }

  lemma {:induction false} TxsAppend(a: seq<OwnedOutput>, b: seq<OwnedOutput>)
    ensures Txs(a + b) == Txs(a) + Txs(b)
  {
  }

  /** Every output the walk reports exists and pays the address. */
  lemma UnspentOutputsPayAddress(env: Env, chain: seq<Block>, address: Address, pk: PublicKey)
    ensures forall o :: o in UnspentOutputs(env, chain, address, pk) ==>
      0 <= o.idx < |o.tx.outputs| && BelongsTo(o.tx.outputs[o.idx], address)
  {
    WalkPaysAddress(env, chain, address, pk, 0, 0, {}, []);
  }

  predicate PaysAddress(os: seq<OwnedOutput>, address: Address) {
    forall o :: o in os ==> 0 <= o.idx < |o.tx.outputs| && BelongsTo(o.tx.outputs[o.idx], address)
  }

  lemma {:induction false} OwnedUnspentPays(tx: Transaction, address: Address, spent: set<UtxoKey>, k: nat)
    requires k <= |tx.outputs|
    ensures PaysAddress(OwnedUnspent(tx, address, spent, k), address)
    ensures forall o :: o in OwnedUnspent(tx, address, spent, k) ==> o.tx == tx
  {
    if k > 0 {
      OwnedUnspentPays(tx, address, spent, k - 1);
    }
  }

  lemma {:induction false} WalkPaysAddress(env: Env, chain: seq<Block>, address: Address, pk: PublicKey,
                                          i: nat, j: nat, spent: set<UtxoKey>, acc: seq<OwnedOutput>)
    requires i < |chain| ==> j <= |chain[i].txs|
    requires PaysAddress(acc, address)
    ensures PaysAddress(Walk(env, chain, address, pk, i, j, spent, acc), address)
    decreases |chain| - i, if i < |chain| then |chain[i].txs| - j else 0
  {
    if i < |chain| {
      if j < |chain[i].txs| {
        var tx := chain[i].txs[j];
        OwnedUnspentPays(tx, address, spent, |tx.outputs|);
        WalkPaysAddress(env, chain, address, pk, i, j + 1, spent + SpentBy(env, tx, pk),
                        acc + OwnedUnspent(tx, address, spent, |tx.outputs|));
      } else if chain[i].prevHash != [] {
        WalkPaysAddress(env, chain, address, pk, i + 1, 0, spent, acc);
      }
    }
  }

  /** Block `i` is one the walk reaches: every block before it, nearer the
      tip, has a previous hash. */
  predicate Reached(chain: seq<Block>, i: nat) {
    i < |chain| && forall i' :: 0 <= i' < i ==> chain[i'].prevHash != []
  }

  /** The keys marked spent before the walk looks at transaction `j` of block
      `i`: those spent by every transaction of the blocks nearer the tip and
      by the transactions before it in block `i`. */
  function SpentBefore(env: Env, chain: seq<Block>, pk: PublicKey, i: nat, j: nat): set<UtxoKey>
    requires i < |chain|
  {
    set i', j', key | 0 <= i' <= i && 0 <= j' < |chain[i'].txs| && (i' < i || j' < j)
                      && key in SpentBy(env, chain[i'].txs[j'], pk) :: key
  }

  /** Output `o` belongs to transaction `j` of a reached block `i`, pays
      `address`, and no transaction the walk visits before it spends it. */
  predicate UnspentAt(env: Env, chain: seq<Block>, address: Address, pk: PublicKey,
                      o: OwnedOutput, i: nat, j: nat)
  {
    && Reached(chain, i) && j < |chain[i].txs| && o.tx == chain[i].txs[j]
    && 0 <= o.idx < |o.tx.outputs| && BelongsTo(o.tx.outputs[o.idx], address)
    && UtxoKey(o.tx.txId, o.idx) !in SpentBefore(env, chain, pk, i, j)
  }

  /** Some transaction at or after position (`i`, `j`) of the walk leaves
      `o` unspent. */
  ghost predicate FoundFrom(env: Env, chain: seq<Block>, address: Address, pk: PublicKey,
                      o: OwnedOutput, i: nat, j: nat)
  {
    exists i': nat, j': nat :: (i < i' || (i == i' && j <= j')) && UnspentAt(env, chain, address, pk, o, i', j')
  }

  /** The walk reports exactly the outputs paying the address that no
      transaction visited before them spends, down to the genesis block. */
  lemma UnspentOutputsExact(env: Env, chain: seq<Block>, address: Address, pk: PublicKey, o: OwnedOutput)
    ensures o in UnspentOutputs(env, chain, address, pk)
        <==> exists i: nat, j: nat :: UnspentAt(env, chain, address, pk, o, i, j)
  {
    if 0 < |chain| {
      assert SpentBefore(env, chain, pk, 0, 0) == {};
    }
    WalkMembers(env, chain, address, pk, 0, 0, {}, [], o);
    if exists i: nat, j: nat :: UnspentAt(env, chain, address, pk, o, i, j) {
      var i: nat, j: nat :| UnspentAt(env, chain, address, pk, o, i, j);
      assert (0 < i || (0 == i && 0 <= j)) && UnspentAt(env, chain, address, pk, o, i, j);
    }
  }

  lemma {:induction false} WalkMembers(env: Env, chain: seq<Block>, address: Address, pk: PublicKey,
                                      i: nat, j: nat, spent: set<UtxoKey>, acc: seq<OwnedOutput>, o: OwnedOutput)
    requires i <= |chain| && forall i' :: 0 <= i' < i ==> chain[i'].prevHash != []
    requires i < |chain| ==> j <= |chain[i].txs| && spent == SpentBefore(env, chain, pk, i, j)
    ensures o in Walk(env, chain, address, pk, i, j, spent, acc)
        <==> o in acc || FoundFrom(env, chain, address, pk, o, i, j)
    decreases |chain| - i, if i < |chain| then |chain[i].txs| - j else 0
  {
    if i == |chain| {
      FoundFromEnd(env, chain, address, pk, o, i, j);
    } else if j < |chain[i].txs| {
      var tx := chain[i].txs[j];
      SpentBeforeStep(env, chain, pk, i, j);
      OwnedUnspentMembers(tx, address, spent, |tx.outputs|, o);
      FoundFromStep(env, chain, address, pk, o, i, j);
      WalkMembers(env, chain, address, pk, i, j + 1, spent + SpentBy(env, tx, pk),
                  acc + OwnedUnspent(tx, address, spent, |tx.outputs|), o);
    } else if chain[i].prevHash == [] {
      FoundFromStop(env, chain, address, pk, o, i);
    } else {
      if i + 1 < |chain| {
        SpentBeforeNext(env, chain, pk, i);
      }
      FoundFromNext(env, chain, address, pk, o, i);
      WalkMembers(env, chain, address, pk, i + 1, 0, spent, acc, o);
    }
  }

  lemma FoundFromEnd(env: Env, chain: seq<Block>, address: Address, pk: PublicKey, o: OwnedOutput, i: nat, j: nat)
    requires i == |chain|
    ensures !FoundFrom(env, chain, address, pk, o, i, j)
  {
  }

  lemma FoundFromStep(env: Env, chain: seq<Block>, address: Address, pk: PublicKey, o: OwnedOutput, i: nat, j: nat)
    requires i < |chain| && j < |chain[i].txs|
    ensures FoundFrom(env, chain, address, pk, o, i, j)
        <==> UnspentAt(env, chain, address, pk, o, i, j) || FoundFrom(env, chain, address, pk, o, i, j + 1)
  {
    if UnspentAt(env, chain, address, pk, o, i, j) {
      assert (i < i || (i == i && j <= j)) && UnspentAt(env, chain, address, pk, o, i, j);
    }
    if FoundFrom(env, chain, address, pk, o, i, j + 1) {
      var i': nat, j': nat :| (i < i' || (i == i' && j + 1 <= j')) && UnspentAt(env, chain, address, pk, o, i', j');
      assert (i < i' || (i == i' && j <= j')) && UnspentAt(env, chain, address, pk, o, i', j');
    }
    if FoundFrom(env, chain, address, pk, o, i, j) && !UnspentAt(env, chain, address, pk, o, i, j) {
      var i': nat, j': nat :| (i < i' || (i == i' && j <= j')) && UnspentAt(env, chain, address, pk, o, i', j');
      assert (i < i' || (i == i' && j + 1 <= j')) && UnspentAt(env, chain, address, pk, o, i', j');
    }
  }

  lemma FoundFromStop(env: Env, chain: seq<Block>, address: Address, pk: PublicKey, o: OwnedOutput, i: nat)
    requires i < |chain| && chain[i].prevHash == []
    ensures !FoundFrom(env, chain, address, pk, o, i, |chain[i].txs|)
  {
  }

  lemma FoundFromNext(env: Env, chain: seq<Block>, address: Address, pk: PublicKey, o: OwnedOutput, i: nat)
    requires i < |chain|
    ensures FoundFrom(env, chain, address, pk, o, i, |chain[i].txs|) <==> FoundFrom(env, chain, address, pk, o, i + 1, 0)
  {
    if FoundFrom(env, chain, address, pk, o, i, |chain[i].txs|) {
      var i': nat, j': nat :| (i < i' || (i == i' && |chain[i].txs| <= j')) && UnspentAt(env, chain, address, pk, o, i', j');
      assert (i + 1 < i' || (i + 1 == i' && 0 <= j')) && UnspentAt(env, chain, address, pk, o, i', j');
    }
    if FoundFrom(env, chain, address, pk, o, i + 1, 0) {
      var i': nat, j': nat :| (i + 1 < i' || (i + 1 == i' && 0 <= j')) && UnspentAt(env, chain, address, pk, o, i', j');
      assert i < i' && UnspentAt(env, chain, address, pk, o, i', j');
    }
  }

  lemma SpentBeforeStep(env: Env, chain: seq<Block>, pk: PublicKey, i: nat, j: nat)
    requires i < |chain| && j < |chain[i].txs|
    ensures SpentBefore(env, chain, pk, i, j + 1)
         == SpentBefore(env, chain, pk, i, j) + SpentBy(env, chain[i].txs[j], pk)
  {
  }

  lemma SpentBeforeNext(env: Env, chain: seq<Block>, pk: PublicKey, i: nat)
    requires i + 1 < |chain|
    ensures SpentBefore(env, chain, pk, i + 1, 0) == SpentBefore(env, chain, pk, i, |chain[i].txs|)
  {
  }

  lemma {:induction false} OwnedUnspentMembers(tx: Transaction, address: Address, spent: set<UtxoKey>, k: nat,
                                              o: OwnedOutput)
    requires k <= |tx.outputs|
    ensures o in OwnedUnspent(tx, address, spent, k)
        <==> o.tx == tx && 0 <= o.idx < k && UtxoKey(tx.txId, o.idx) !in spent && BelongsTo(tx.outputs[o.idx], address)
  {
    if k > 0 {
      OwnedUnspentMembers(tx, address, spent, k - 1, o);
    }
  }

  // ---- GetBalance ----

  /** The value of the outputs of `outs` that pay `address`. */
  function OwnedValue(outs: seq<TxOutput>, address: Address): int {
    if outs == [] then 0
    else OwnedValue(outs[..|outs| - 1], address)
         + (if BelongsTo(outs[|outs| - 1], address) then outs[|outs| - 1].value else 0)
  }

  /** What `GetBalance` adds up: for every listed transaction, all of its
      outputs that pay the address, spent or not. */
  function Balance(txs: seq<Transaction>, address: Address): int {
    if txs == [] then 0
    else Balance(txs[..|txs| - 1], address) + OwnedValue(txs[|txs| - 1].outputs, address)
  }

  /** `GetBalance`, as written. */
  method GetBalance(env: Env, chain: seq<Block>, address: Address, pk: PublicKey) returns (balance: int)
    ensures balance == Balance(Txs(UnspentOutputs(env, chain, address, pk)), address)
  {
    var unspentTxs := FindUnspentTransactions(env, chain, address, pk);
    balance := 0;
    var i := 0;
    while i < |unspentTxs|
      invariant 0 <= i <= |unspentTxs|
      invariant balance == Balance(unspentTxs[..i], address)
    {
      var owned := OwnedOutputsValue(unspentTxs[i].outputs, address);
      BalanceStep(unspentTxs, address, i);
      balance := balance + owned;
      i := i + 1;
    }
    BalanceWhole(unspentTxs, address);
  }

  lemma BalanceStep(txs: seq<Transaction>, address: Address, i: nat)
    requires i < |txs|
    ensures Balance(txs[..i + 1], address) == Balance(txs[..i], address) + OwnedValue(txs[i].outputs, address)
  {
    assert txs[..i + 1][..i] == txs[..i];
  }

  lemma BalanceWhole(txs: seq<Transaction>, address: Address)
    ensures Balance(txs[..|txs|], address) == Balance(txs, address)
  {
    assert txs[..|txs|] == txs;
  }

  /** The inner loop of `GetBalance`: the outputs of one transaction that
      pay the address, added up. */
  method OwnedOutputsValue(outs: seq<TxOutput>, address: Address) returns (v: int)
    ensures v == OwnedValue(outs, address)
  {
    v := 0;
    var k := 0;
    while k < |outs|
      invariant 0 <= k <= |outs|
      invariant v == OwnedValue(outs[..k], address)
    {
      assert OwnedValue(outs[..k + 1], address)
          == OwnedValue(outs[..k], address) + (if BelongsTo(outs[k], address) then outs[k].value else 0) by {
        assert outs[..k + 1][..k] == outs[..k];
      }
      if BelongsTo(outs[k], address) {
        v := v + outs[k].value;
      }
      k := k + 1;
    }
    assert outs[..k] == outs;
  }

  /** The balance the operation is meant to report: the value of each unspent
      output paying the address, counted once. */
  function UnspentBalance(os: seq<OwnedOutput>): int
    requires forall o :: o in os ==> 0 <= o.idx < |o.tx.outputs|
  {
    if os == [] then 0
    else
      var last := os[|os| - 1];
      UnspentBalance(os[..|os| - 1]) + last.tx.outputs[last.idx].value
  }

  /** The number of outputs of `outs` that pay `address`. */
  function PaymentCount(outs: seq<TxOutput>, address: Address): nat {
    if outs == [] then 0
    else PaymentCount(outs[..|outs| - 1], address) + (if BelongsTo(outs[|outs| - 1], address) then 1 else 0)
  }

  /** An output list paying the address exactly once at `idx` gives the
      address exactly that output's value. */
  lemma {:induction false} SinglePayment(outs: seq<TxOutput>, address: Address, idx: int)
    requires 0 <= idx < |outs| && BelongsTo(outs[idx], address)
    requires PaymentCount(outs, address) == 1
    ensures OwnedValue(outs, address) == outs[idx].value
  {
    var n := |outs|;
    var init := outs[..n - 1];
    if idx < n - 1 {
      assert init[idx] == outs[idx];
      PaymentCountPositive(init, address, idx);
      SinglePayment(init, address, idx);
    } else {
      NoPaymentNoValue(init, address);
    }
  }

  lemma {:induction false} PaymentCountPositive(outs: seq<TxOutput>, address: Address, idx: int)
    requires 0 <= idx < |outs| && BelongsTo(outs[idx], address)
    ensures PaymentCount(outs, address) >= 1
  {
    if idx < |outs| - 1 {
      var init := outs[..|outs| - 1];
      assert init[idx] == outs[idx];
      PaymentCountPositive(init, address, idx);
    }
  }

  lemma {:induction false} NoPaymentNoValue(outs: seq<TxOutput>, address: Address)
    requires PaymentCount(outs, address) == 0
    ensures OwnedValue(outs, address) == 0
  {
    if outs != [] {
      NoPaymentNoValue(outs[..|outs| - 1], address);
    }
  }

  /** Where no listed transaction pays the address more than once, the
      as-written balance is the intended one. */
  lemma {:induction false} BalanceAgreesOnSinglePayments(os: seq<OwnedOutput>, address: Address)
    requires PaysAddress(os, address)
    requires forall o :: o in os ==> PaymentCount(o.tx.outputs, address) == 1
    ensures Balance(Txs(os), address) == UnspentBalance(os)
  {
    if os != [] {
      var init := os[..|os| - 1];
      var last := os[|os| - 1];
      assert Txs(os)[..|os| - 1] == Txs(init);
      BalanceAgreesOnSinglePayments(init, address);
      SinglePayment(last.tx.outputs, address, last.idx);
    }
  }

  /** The intended balance of an address on a chain whose transactions pay it
      at most once each agrees with `GetBalance`. */
  lemma GetBalanceCorrectOnSinglePayments(env: Env, chain: seq<Block>, address: Address, pk: PublicKey)
    requires forall b, t :: b in chain && t in b.txs ==> PaymentCount(t.outputs, address) <= 1
    ensures UnspentOutputsValid(env, chain, address, pk)
    ensures Balance(Txs(UnspentOutputs(env, chain, address, pk)), address)
            == UnspentBalance(UnspentOutputs(env, chain, address, pk))
  {
    var os := UnspentOutputs(env, chain, address, pk);
    UnspentOutputsPayAddress(env, chain, address, pk);
    UnspentOutputsFromChain(env, chain, address, pk);
    forall o | o in os
      ensures PaymentCount(o.tx.outputs, address) == 1
    {
      PaymentCountPositive(o.tx.outputs, address, o.idx);
    }
    BalanceAgreesOnSinglePayments(os, address);
  }

  predicate UnspentOutputsValid(env: Env, chain: seq<Block>, address: Address, pk: PublicKey) {
    forall o :: o in UnspentOutputs(env, chain, address, pk) ==> 0 <= o.idx < |o.tx.outputs|
  }

  /** Every output the walk reports belongs to a transaction of the chain. */
  lemma UnspentOutputsFromChain(env: Env, chain: seq<Block>, address: Address, pk: PublicKey)
    ensures forall o :: o in UnspentOutputs(env, chain, address, pk) ==>
      exists b :: b in chain && o.tx in b.txs
  {
    WalkFromChain(env, chain, address, pk, 0, 0, {}, []);
  }

  /** The key of an owned output. */
  function OutKey(o: OwnedOutput): UtxoKey {
    UtxoKey(o.tx.txId, o.idx)
  }

  lemma {:induction false} OwnedUnspentAvoids(tx: Transaction, address: Address, spent: set<UtxoKey>, k: nat)
    requires k <= |tx.outputs|
    ensures forall o :: o in OwnedUnspent(tx, address, spent, k) ==> OutKey(o) !in spent
  {
    if k > 0 {
      OwnedUnspentAvoids(tx, address, spent, k - 1);
    }
  }

  /** The walk only adds to what it has found, and what it adds from a
      resume point on avoids every key marked spent by then: the blocks after
      the output's own (visited first) and the earlier transactions of its
      block. */
  lemma {:induction false} WalkAvoidsSpent(env: Env, chain: seq<Block>, address: Address, pk: PublicKey,
                                          i: nat, j: nat, spent: set<UtxoKey>, acc: seq<OwnedOutput>)
    requires i < |chain| ==> j <= |chain[i].txs|
    ensures var r := Walk(env, chain, address, pk, i, j, spent, acc);
      |acc| <= |r| && r[..|acc|] == acc
      && forall k :: |acc| <= k < |r| ==> OutKey(r[k]) !in spent
    decreases |chain| - i, if i < |chain| then |chain[i].txs| - j else 0
  {
    if i < |chain| {
      if j < |chain[i].txs| {
        var tx := chain[i].txs[j];
        var found := OwnedUnspent(tx, address, spent, |tx.outputs|);
        OwnedUnspentAvoids(tx, address, spent, |tx.outputs|);
        WalkAvoidsSpent(env, chain, address, pk, i, j + 1, spent + SpentBy(env, tx, pk), acc + found);
        AvoidsAfterPrefix(acc, found, Walk(env, chain, address, pk, i, j, spent, acc), spent, spent + SpentBy(env, tx, pk));
      } else if chain[i].prevHash != [] {
        WalkAvoidsSpent(env, chain, address, pk, i + 1, 0, spent, acc);
      }
    }
  }

  /** A list that starts with `acc + found`, where `found` avoids `spent`
      and the rest avoids the larger set `later`, avoids `spent` after `acc`. */
  lemma AvoidsAfterPrefix(acc: seq<OwnedOutput>, found: seq<OwnedOutput>, r: seq<OwnedOutput>,
                          spent: set<UtxoKey>, later: set<UtxoKey>)
    requires |acc + found| <= |r| && r[..|acc + found|] == acc + found
    requires forall o :: o in found ==> OutKey(o) !in spent
    requires forall k :: |acc + found| <= k < |r| ==> OutKey(r[k]) !in later
    requires spent <= later
    ensures |acc| <= |r| && r[..|acc|] == acc
    ensures forall k :: |acc| <= k < |r| ==> OutKey(r[k]) !in spent
  {
    assert r[..|acc|] == (acc + found)[..|acc|];
    forall k | |acc| <= k < |r|
      ensures OutKey(r[k]) !in spent
    {
      if k < |acc + found| {
        assert r[k] == (acc + found)[k] == found[k - |acc|];
      }
    }
  }

  predicate FromChain(os: seq<OwnedOutput>, chain: seq<Block>) {
    forall o :: o in os ==> exists b :: b in chain && o.tx in b.txs
  }

  lemma {:induction false} WalkFromChain(env: Env, chain: seq<Block>, address: Address, pk: PublicKey,
                                        i: nat, j: nat, spent: set<UtxoKey>, acc: seq<OwnedOutput>)
    requires i < |chain| ==> j <= |chain[i].txs|
    requires FromChain(acc, chain)
    ensures FromChain(Walk(env, chain, address, pk, i, j, spent, acc), chain)
    decreases |chain| - i, if i < |chain| then |chain[i].txs| - j else 0
  {
    if i < |chain| {
      if j < |chain[i].txs| {
        var tx := chain[i].txs[j];
        OwnedUnspentPays(tx, address, spent, |tx.outputs|);
        assert chain[i] in chain && tx in chain[i].txs;
        WalkFromChain(env, chain, address, pk, i, j + 1, spent + SpentBy(env, tx, pk),
                      acc + OwnedUnspent(tx, address, spent, |tx.outputs|));
      } else if chain[i].prevHash != [] {
        WalkFromChain(env, chain, address, pk, i + 1, 0, spent, acc);
      }
    }
  }

  /** As written, a transaction paying the address twice is counted twice
      for each of its unspent outputs: one genesis-like block whose single
      transaction pays 10 twice to the same address yields 40, though the
      address holds 20. */
  lemma GetBalanceDoubleCounts(env: Env)
    ensures var a: Address := [7];
      var t := Transaction([1], [], [TxOutput(10, a), TxOutput(10, a)]);
      var chain := [Block([], [2], [], [t], 0, 0, 0)];
      Balance(Txs(UnspentOutputs(env, chain, a, [])), a) == 40
      && UnspentBalance(UnspentOutputs(env, chain, a, [])) == 20
  {
    var a: Address := [7];
    var t := Transaction([1], [], [TxOutput(10, a), TxOutput(10, a)]);
    DoubleCountWalk(env, a, t);
    DoubleCountBalances(a, t);
  }

  /** The walk over the one-block chain finds both outputs of `t`. */
  lemma DoubleCountWalk(env: Env, a: Address, t: Transaction)
    requires t == Transaction([1], [], [TxOutput(10, a), TxOutput(10, a)])
    ensures UnspentOutputs(env, [Block([], [2], [], [t], 0, 0, 0)], a, []) == [OwnedOutput(t, 0), OwnedOutput(t, 1)]
  {
    var chain := [Block([], [2], [], [t], 0, 0, 0)];
    var os := [OwnedOutput(t, 0), OwnedOutput(t, 1)];
    assert OwnedUnspent(t, a, {}, 0) == [];
    assert OwnedUnspent(t, a, {}, 1) == [OwnedOutput(t, 0)];
    assert OwnedUnspent(t, a, {}, 2) == os;
    assert Walk(env, chain, a, [], 0, 1, SpentBy(env, t, []), os) == os;
    assert chain[0].txs[0] == t && |t.outputs| == 2;
    assert [] + OwnedUnspent(t, a, {}, |t.outputs|) == os;
    assert {} + SpentBy(env, t, []) == SpentBy(env, t, []);
    assert Walk(env, chain, a, [], 0, 0, {}, []) == Walk(env, chain, a, [], 0, 1, SpentBy(env, t, []), os);
  }

  /** Both outputs pay 10: they hold 20, and the per-transaction balance
      counts `t` once per output, 40. */
  lemma DoubleCountBalances(a: Address, t: Transaction)
    requires t == Transaction([1], [], [TxOutput(10, a), TxOutput(10, a)])
    ensures Balance(Txs([OwnedOutput(t, 0), OwnedOutput(t, 1)]), a) == 40
    ensures UnspentBalance([OwnedOutput(t, 0), OwnedOutput(t, 1)]) == 20
  {
    var os := [OwnedOutput(t, 0), OwnedOutput(t, 1)];
    assert os[..1] == [OwnedOutput(t, 0)];
    assert UnspentBalance([OwnedOutput(t, 0)]) == 10;
    assert t.outputs[..1] == [TxOutput(10, a)];
    assert OwnedValue([TxOutput(10, a)], a) == 10;
    assert OwnedValue(t.outputs, a) == 20;
    assert Txs(os) == [t, t];
    assert [t, t][..1] == [t];
    assert Balance([t], a) == 20;
  }

  // ---- GenerateSpendingPlan ----

  /** The outputs among the first `k` of `tx` that pay `address`, as
      (transaction id, index, value), in output order. */
  function TxOwned(tx: Transaction, address: Address, k: nat): seq<UnspentTxo>
    requires k <= |tx.outputs|
  {
    if k == 0 then []
    else
      TxOwned(tx, address, k - 1)
      + (if BelongsTo(tx.outputs[k - 1], address)
         then [UnspentTxo(tx.txId, k - 1, tx.outputs[k - 1].value)] else [])
  }

  /** Every output paying `address` of every listed transaction, in the order
      the planner visits them. */
  function OwnedOutputs(txs: seq<Transaction>, address: Address): seq<UnspentTxo> {
    if txs == [] then []
    else OwnedOutputs(txs[..|txs| - 1], address) + TxOwned(txs[|txs| - 1], address, |txs[|txs| - 1].outputs|)
  }

  /** Where the planner stops in `l`: after the shortest prefix that covers
      `value`, or after all of `l` when no prefix does. */
  function CoverLength(l: seq<UnspentTxo>, value: int): (n: nat)
    ensures n <= |l|
    ensures forall k :: 1 <= k < n ==> !Covers(l, value, k)
    ensures (exists k :: Covers(l, value, k)) ==> Covers(l, value, n)
    ensures (forall k :: !Covers(l, value, k)) ==> n == |l|
  {
    CoverFrom(l, value, 0)
  }

  function CoverFrom(l: seq<UnspentTxo>, value: int, i: nat): (n: nat)
    requires i <= |l|
    requires forall k :: 1 <= k <= i ==> !Covers(l, value, k)
    ensures i <= n <= |l|
    ensures forall k :: 1 <= k < n ==> !Covers(l, value, k)
    ensures (exists k :: Covers(l, value, k)) ==> Covers(l, value, n)
    ensures (forall k :: !Covers(l, value, k)) ==> n == |l|
    decreases |l| - i
  {
    if i == |l| then |l|
    else if ValueSum(l[..i + 1]) >= value then i + 1
    else CoverFrom(l, value, i + 1)
  }

  /** The shortest covering prefix is where the planner stops. */
  lemma CoverLengthIsLeast(l: seq<UnspentTxo>, value: int, m: nat)
    requires Covers(l, value, m)
    requires forall k :: 1 <= k < m ==> !Covers(l, value, k)
    ensures CoverLength(l, value) == m
  {
  }

  /** The planner's answer on the address's outputs `flat`: the accumulated
      value and the chosen output indices grouped by transaction id. */
  function ChainPlan(flat: seq<UnspentTxo>, amount: int): (int, map<seq<byte>, seq<int>>) {
    var n := CoverLength(flat, amount);
    (ValueSum(flat[..n]), GroupByTx(flat[..n]))
  }

  /** The plan for `address` on this chain. */
  function Plan(env: Env, chain: seq<Block>, address: Address, pk: PublicKey, amount: int)
    : (int, map<seq<byte>, seq<int>>)
  {
    ChainPlan(OwnedOutputs(Txs(UnspentOutputs(env, chain, address, pk)), address), amount)
  }

  /** The planner's loop state: it has taken a prefix of `flat`, none of whose
      non-empty prefixes covers `amount`, and its counters describe it. */
  predicate Progress(flat: seq<UnspentTxo>, amount: int, taken: seq<UnspentTxo>,
                     accumulated: int, candidates: map<seq<byte>, seq<int>>)
  {
    && taken <= flat
    && accumulated == ValueSum(taken)
    && candidates == GroupByTx(taken)
    && forall k :: 1 <= k <= |taken| ==> !Covers(flat, amount, k)
  }

  /** `GenerateSpendingPlan` of the chain: visits the address's unspent
      transactions and their outputs paying it, stops as soon as the
      accumulated value reaches `amount`, and returns that value with the
      visited outputs grouped by transaction id. */
  method GenerateSpendingPlan(env: Env, chain: seq<Block>, address: Address, pk: PublicKey, amount: int)
    returns (accumulated: int, candidates: map<seq<byte>, seq<int>>)
    ensures (accumulated, candidates) == Plan(env, chain, address, pk, amount)
  {
    var unspentTxs := FindUnspentTransactions(env, chain, address, pk);
    ghost var flat := OwnedOutputs(unspentTxs, address);
    accumulated := 0;
    candidates := map[];
    var i := 0;
    while i < |unspentTxs|
      invariant 0 <= i <= |unspentTxs|
      invariant Progress(flat, amount, OwnedOutputs(unspentTxs[..i], address), accumulated, candidates)
    {
      var tx := unspentTxs[i];
      ghost var base := OwnedOutputs(unspentTxs[..i], address);
      PlannedPrefix(unspentTxs, address, i, |tx.outputs|);
      var reached;
      accumulated, candidates, reached := PlanOutputs(tx, address, amount, flat, base, accumulated, candidates);
      if reached {
        return;
      }
      OwnedOutputsStep(unspentTxs, address, i);
      i := i + 1;
    }
    OwnedOutputsWhole(unspentTxs, address);
    PlanExhausted(flat, amount);
  }

  /** The output loop of the planner for one transaction, resuming from the
      prefix `base` already taken. `reached` reports the source's labelled
      break out of both loops: the accumulated value has reached `amount`,
      and the result is then the whole plan. */
  method PlanOutputs(tx: Transaction, address: Address, amount: int, ghost flat: seq<UnspentTxo>,
                     ghost base: seq<UnspentTxo>, accumulated0: int, candidates0: map<seq<byte>, seq<int>>)
    returns (accumulated: int, candidates: map<seq<byte>, seq<int>>, reached: bool)
    requires base + TxOwned(tx, address, |tx.outputs|) <= flat
    requires Progress(flat, amount, base, accumulated0, candidates0)
    ensures reached ==> ChainPlan(flat, amount) == (accumulated, candidates)
    ensures !reached ==> Progress(flat, amount, base + TxOwned(tx, address, |tx.outputs|), accumulated, candidates)
  {
    accumulated, candidates := accumulated0, candidates0;
    ghost var taken := base;
    var k := 0;
    while k < |tx.outputs|
      invariant 0 <= k <= |tx.outputs|
      invariant taken == base + TxOwned(tx, address, k)
      invariant Progress(flat, amount, taken, accumulated, candidates)
    {
      if BelongsTo(tx.outputs[k], address) {
        TakeOutput(flat, amount, base, tx, address, k, taken, accumulated, candidates);
        accumulated := accumulated + tx.outputs[k].value;
        candidates := candidates[tx.txId := (if tx.txId in candidates then candidates[tx.txId] else []) + [k]];
        taken := taken + [UnspentTxo(tx.txId, k, tx.outputs[k].value)];
        if accumulated >= amount {
          return accumulated, candidates, true;
        }
      } else {
        assert TxOwned(tx, address, k + 1) == TxOwned(tx, address, k);
      }
      k := k + 1;
    }
    reached := false;
  }

  /** The planner's step on output `k` of `tx`, which pays the address:
      the taken list grows by that output, the counters follow, and either
      the amount is now covered for the first time (and the plan is known)
      or the loop state still holds. */
  lemma TakeOutput(flat: seq<UnspentTxo>, amount: int, base: seq<UnspentTxo>, tx: Transaction, address: Address,
                   k: nat, taken: seq<UnspentTxo>, accumulated: int, candidates: map<seq<byte>, seq<int>>)
    requires k < |tx.outputs| && BelongsTo(tx.outputs[k], address)
    requires base + TxOwned(tx, address, |tx.outputs|) <= flat
    requires taken == base + TxOwned(tx, address, k)
    requires Progress(flat, amount, taken, accumulated, candidates)
    ensures var u := UnspentTxo(tx.txId, k, tx.outputs[k].value);
      var next := taken + [u];
      var acc := accumulated + tx.outputs[k].value;
      var cand := candidates[tx.txId := (if tx.txId in candidates then candidates[tx.txId] else []) + [k]];
      && next == base + TxOwned(tx, address, k + 1)
      && (acc >= amount ==> ChainPlan(flat, amount) == (acc, cand))
      && (acc < amount ==> Progress(flat, amount, next, acc, cand))
  {
    var u := UnspentTxo(tx.txId, k, tx.outputs[k].value);
    var next := taken + [u];
    var acc := accumulated + tx.outputs[k].value;
    var cand := candidates[tx.txId := (if tx.txId in candidates then candidates[tx.txId] else []) + [k]];
    PrefixStep(base, tx, address, k, flat);
    assert ValueSum(next) == acc by {
      ValueSumAppend(taken, [u]);
      assert [u][..0] == [];
    }
    assert GroupByTx(next) == cand by {
      assert next[..|next| - 1] == taken;
    }
    if acc >= amount {
      PlanStops(flat, amount, next, acc, cand);
    } else {
      ProgressGrows(flat, amount, taken, next, acc, cand);
    }
  }

  /** A taken list one longer whose value is still short of `amount` keeps
      the loop state. */
  lemma ProgressGrows(flat: seq<UnspentTxo>, amount: int, taken: seq<UnspentTxo>, next: seq<UnspentTxo>,
                      acc: int, cand: map<seq<byte>, seq<int>>)
    requires next <= flat && |next| == |taken| + 1
    requires forall k :: 1 <= k <= |taken| ==> !Covers(flat, amount, k)
    requires acc == ValueSum(next) && cand == GroupByTx(next) && acc < amount
    ensures Progress(flat, amount, next, acc, cand)
  {
    assert flat[..|next|] == next;
  }

  /** One more output taken within a transaction keeps the taken list a
      prefix of the address's outputs. */
  lemma PrefixStep(base: seq<UnspentTxo>, tx: Transaction, address: Address, k: nat, flat: seq<UnspentTxo>)
    requires k < |tx.outputs| && BelongsTo(tx.outputs[k], address)
    requires base + TxOwned(tx, address, |tx.outputs|) <= flat
    ensures var u := UnspentTxo(tx.txId, k, tx.outputs[k].value);
      base + TxOwned(tx, address, k) + [u] == base + TxOwned(tx, address, k + 1)
      && base + TxOwned(tx, address, k + 1) <= flat
  {
    TxOwnedPrefix(tx, address, k + 1, |tx.outputs|);
    var whole := TxOwned(tx, address, |tx.outputs|);
    var part := TxOwned(tx, address, k + 1);
    assert base + part == (base + whole)[..|base| + |part|];
  }

  /** Stopping at the first covering prefix `taken` gives the plan. */
  lemma PlanStops(flat: seq<UnspentTxo>, amount: int, taken: seq<UnspentTxo>,
                  acc: int, cand: map<seq<byte>, seq<int>>)
    requires taken <= flat && |taken| >= 1
    requires acc == ValueSum(taken) && cand == GroupByTx(taken) && acc >= amount
    requires forall k :: 1 <= k < |taken| ==> !Covers(flat, amount, k)
    ensures ChainPlan(flat, amount) == (acc, cand)
  {
    assert flat[..|taken|] == taken;
    assert Covers(flat, amount, |taken|);
    CoverLengthIsLeast(flat, amount, |taken|);
  }

  /** When no prefix covers, the plan is everything. */
  lemma PlanExhausted(flat: seq<UnspentTxo>, amount: int)
    requires forall k :: 1 <= k <= |flat| ==> !Covers(flat, amount, k)
    ensures ChainPlan(flat, amount) == (ValueSum(flat), GroupByTx(flat))
  {
    assert forall k :: !Covers(flat, amount, k);
    assert flat[..|flat|] == flat;
  }

  /** Taking output `k` of transaction `i` extends the planner's prefix of
      the address's outputs by one. */
  lemma TakeOne(txs: seq<Transaction>, address: Address, i: nat, k: nat, prev: seq<UnspentTxo>)
    requires i < |txs| && k < |txs[i].outputs| && BelongsTo(txs[i].outputs[k], address)
    requires prev == OwnedOutputs(txs[..i], address) + TxOwned(txs[i], address, k)
    ensures var u := UnspentTxo(txs[i].txId, k, txs[i].outputs[k].value);
      prev + [u] == OwnedOutputs(txs[..i], address) + TxOwned(txs[i], address, k + 1)
      && prev + [u] <= OwnedOutputs(txs, address)
  {
    PlannedPrefix(txs, address, i, k + 1);
  }

  /** What the planner has visited up to output `k` of transaction `i` is a
      prefix of all the address's outputs. */
  lemma PlannedPrefix(txs: seq<Transaction>, address: Address, i: nat, k: nat)
    requires i < |txs| && k <= |txs[i].outputs|
    ensures OwnedOutputs(txs[..i], address) + TxOwned(txs[i], address, k) <= OwnedOutputs(txs, address)
  {
    var tx := txs[i];
    TxOwnedPrefix(tx, address, k, |tx.outputs|);
    OwnedOutputsStep(txs, address, i);
    OwnedOutputsPrefix(txs, address, i + 1);
  }

  /** The planner's visited outputs grow by one transaction's at a time. */
  lemma OwnedOutputsStep(txs: seq<Transaction>, address: Address, i: nat)
    requires i < |txs|
    ensures OwnedOutputs(txs[..i + 1], address) == OwnedOutputs(txs[..i], address) + TxOwned(txs[i], address, |txs[i].outputs|)
  {
    assert txs[..i + 1][..i] == txs[..i];
  }

  lemma OwnedOutputsWhole(txs: seq<Transaction>, address: Address)
    ensures OwnedOutputs(txs[..|txs|], address) == OwnedOutputs(txs, address)
  {
    assert txs[..|txs|] == txs;
  }

  lemma {:induction false} TxOwnedPrefix(tx: Transaction, address: Address, k: nat, m: nat)
    requires k <= m <= |tx.outputs|
    ensures TxOwned(tx, address, k) <= TxOwned(tx, address, m)
    decreases m
  {
    if k < m {
      TxOwnedPrefix(tx, address, k, m - 1);
    }
  }

  lemma {:induction false} OwnedOutputsPrefix(txs: seq<Transaction>, address: Address, i: nat)
    requires i <= |txs|
    ensures OwnedOutputs(txs[..i], address) <= OwnedOutputs(txs, address)
    decreases |txs|
  {
    if i < |txs| {
      var init := txs[..|txs| - 1];
      assert init[..i] == txs[..i];
      OwnedOutputsPrefix(init, address, i);
    } else {
      assert txs[..i] == txs;
    }
  }

  // ---- GenerateTransaction ----

  /** What `GenerateTransaction` returns, or the reason it panics. */
  datatype Payment =
    | Built(tx: Transaction)
    | ReceiverAmountMismatch
    | NotEnoughFunds
    | MultipleTxoInOneTx

  function SumInts(xs: seq<int>): int {
    if xs == [] then 0 else SumInts(xs[..|xs| - 1]) + xs[|xs| - 1]
  }

  /** An input spending the one planned output of its source transaction,
      signed with `sk` over the input with an empty signature. */
  predicate SignedFromPlan(env: Env, candidates: map<seq<byte>, seq<int>>, sk: PrivateKey, input: TxInput) {
    && input.sourceTxId in candidates
    && candidates[input.sourceTxId] == [input.txOutputIdx]
    && input.sig == env.sign(TxInput(input.sourceTxId, input.txOutputIdx, []), sk)
  }

  /** The source transaction ids of a list of inputs. */
  function Sources(inputs: seq<TxInput>): (r: seq<seq<byte>>)
    ensures |r| == |inputs|
    ensures forall j :: 0 <= j < |inputs| ==> r[j] == inputs[j].sourceTxId
  {
    seq(|inputs|, j requires 0 <= j < |inputs| => inputs[j].sourceTxId)
  }

  /** One signed input per planned source transaction, no source twice. */
  predicate InputsFromPlan(env: Env, candidates: map<seq<byte>, seq<int>>, sk: PrivateKey, inputs: seq<TxInput>) {
    && |inputs| == |candidates|
    && (forall j :: 0 <= j < |inputs| ==> SignedFromPlan(env, candidates, sk, inputs[j]))
    && (forall id :: id in candidates ==> id in Sources(inputs))
    && (forall j1, j2 :: 0 <= j1 < j2 < |inputs| ==> inputs[j1].sourceTxId != inputs[j2].sourceTxId)
  }

  /** The payment `tx` builds from a plan with total `inputTotal`: its
      inputs come from the plan, its outputs pay each receiver its amount in
      order, then the change (if any) back to `from`; they add up to the plan
      total, and the id is derived from the contents. */
  predicate PaymentFromPlan(env: Env, tx: Transaction, from: Address, sk: PrivateKey,
                            toAddrs: seq<Address>, amounts: seq<int>,
                            inputTotal: int, candidates: map<seq<byte>, seq<int>>)
    requires |toAddrs| == |amounts|
  {
    && tx.txId == env.txIdOf(tx.inputs, tx.outputs)
    && InputsFromPlan(env, candidates, sk, tx.inputs)
    && |tx.outputs| == |toAddrs| + (if inputTotal > SumInts(amounts) then 1 else 0)
    && (forall i :: 0 <= i < |toAddrs| ==> tx.outputs[i] == TxOutput(amounts[i], toAddrs[i]))
    && (inputTotal > SumInts(amounts) ==> tx.outputs[|toAddrs|] == TxOutput(inputTotal - SumInts(amounts), from))
    && SumOutputs(tx.outputs) == inputTotal
  }

  /** `GenerateTransaction`: pays `amounts[i]` to `toAddrs[i]` from the
      outputs the plan picks for `from`. It panics (here: an error value) on a
      length mismatch, when the plan falls short, and when the plan takes two
      outputs of one transaction. */
  method GenerateTransaction(env: Env, chain: seq<Block>, from: Address, pk: PublicKey, sk: PrivateKey,
                             toAddrs: seq<Address>, amounts: seq<int>) returns (r: Payment)
    ensures r.ReceiverAmountMismatch? <==> |toAddrs| != |amounts|
    ensures |toAddrs| == |amounts| ==>
      var (inputTotal, candidates) := Plan(env, chain, from, pk, SumInts(amounts));
      && (r.NotEnoughFunds? <==> inputTotal < SumInts(amounts))
      && (r.MultipleTxoInOneTx? <==>
            inputTotal >= SumInts(amounts) && exists id :: id in candidates && |candidates[id]| != 1)
      && (r.Built? ==> PaymentFromPlan(env, r.tx, from, sk, toAddrs, amounts, inputTotal, candidates))
  {
    if |toAddrs| != |amounts| {
      return ReceiverAmountMismatch;
    }
    var totalAmount := TotalAmount(amounts);
    var inputTotal, inputUtxos := GenerateSpendingPlan(env, chain, from, pk, totalAmount);
    if inputTotal < totalAmount {
      return NotEnoughFunds;
    }
    var signed := SignInputs(env, inputUtxos, sk);
    if signed.None? {
      return MultipleTxoInOneTx;
    }
    var outputs := PayOutputs(from, toAddrs, amounts, inputTotal, totalAmount);
    var tx := SetId(env, Transaction([], signed.value, outputs));
    return Built(tx);
  }

  /** The amount loop of `GenerateTransaction`. */
  method TotalAmount(amounts: seq<int>) returns (totalAmount: int)
    ensures totalAmount == SumInts(amounts)
  {
    totalAmount := 0;
    var i := 0;
    while i < |amounts|
      invariant 0 <= i <= |amounts|
      invariant totalAmount == SumInts(amounts[..i])
    {
      totalAmount := totalAmount + amounts[i];
      assert amounts[..i + 1][..i] == amounts[..i];
      i := i + 1;
    }
    assert amounts[..i] == amounts;
  }

  /** The output loop of `GenerateTransaction`: one output per receiver, then
      the change back to `from` when the plan overshoots. */
  method PayOutputs(from: Address, toAddrs: seq<Address>, amounts: seq<int>, inputTotal: int, totalAmount: int)
    returns (outputs: seq<TxOutput>)
    requires |toAddrs| == |amounts| && totalAmount == SumInts(amounts) && inputTotal >= totalAmount
    ensures |outputs| == |toAddrs| + (if inputTotal > totalAmount then 1 else 0)
    ensures forall i :: 0 <= i < |toAddrs| ==> outputs[i] == TxOutput(amounts[i], toAddrs[i])
    ensures inputTotal > totalAmount ==> outputs[|toAddrs|] == TxOutput(inputTotal - totalAmount, from)
    ensures SumOutputs(outputs) == inputTotal
  {
    outputs := ReceiverOutputs(toAddrs, amounts);
    if inputTotal > totalAmount {
      SumOutputsSnoc(outputs, TxOutput(inputTotal - totalAmount, from));
      outputs := outputs + [TxOutput(inputTotal - totalAmount, from)];
    }
  }

  /** One output per receiver, paying it its amount, in order. */
  method ReceiverOutputs(toAddrs: seq<Address>, amounts: seq<int>) returns (outputs: seq<TxOutput>)
    requires |toAddrs| == |amounts|
    ensures |outputs| == |toAddrs|
    ensures forall i :: 0 <= i < |toAddrs| ==> outputs[i] == TxOutput(amounts[i], toAddrs[i])
    ensures SumOutputs(outputs) == SumInts(amounts)
  {
    outputs := [];
    var idx := 0;
    while idx < |toAddrs|
      invariant 0 <= idx <= |toAddrs|
      invariant |outputs| == idx
      invariant forall m :: 0 <= m < idx ==> outputs[m] == TxOutput(amounts[m], toAddrs[m])
      invariant SumOutputs(outputs) == SumInts(amounts[..idx])
    {
      SumOutputsSnoc(outputs, TxOutput(amounts[idx], toAddrs[idx]));
      assert amounts[..idx + 1][..idx] == amounts[..idx];
      outputs := outputs + [TxOutput(amounts[idx], toAddrs[idx])];
      idx := idx + 1;
    }
    assert amounts[..idx] == amounts;
  }

  lemma SumOutputsSnoc(outs: seq<TxOutput>, o: TxOutput)
    ensures SumOutputs(outs + [o]) == SumOutputs(outs) + o.value
  {
    assert (outs + [o])[..|outs|] == outs;
  }

  /** The input loop of `GenerateTransaction` over the plan's map (in
      whatever order the map yields its keys): every source transaction must
      contribute exactly one output index, which becomes one signed input. */
  method SignInputs(env: Env, candidates: map<seq<byte>, seq<int>>, sk: PrivateKey) returns (r: Option<seq<TxInput>>)
    ensures r.None? <==> exists id :: id in candidates && |candidates[id]| != 1
    ensures r.Some? ==> InputsFromPlan(env, candidates, sk, r.value)
  {
    var inputs: seq<TxInput> := [];
    var done: set<seq<byte>> := {};
    while done != candidates.Keys
      invariant done <= candidates.Keys
      invariant SignedSoFar(env, candidates, sk, inputs, done)
      decreases candidates.Keys - done
    {
      var id :| id in candidates && id !in done;
      if |candidates[id]| != 1 {
        assert id in candidates && |candidates[id]| != 1;
        return None;
      }
      var input := TxInput(id, candidates[id][0], []);
      input := input.(sig := env.sign(input, sk));
      SignOneMore(env, candidates, sk, inputs, done, id);
      inputs := inputs + [input];
      done := done + {id};
    }
    SignedAllIsPlan(env, candidates, sk, inputs);
    return Some(inputs);
  }

  /** Once every planned source is signed, the inputs are the plan's. */
  lemma SignedAllIsPlan(env: Env, candidates: map<seq<byte>, seq<int>>, sk: PrivateKey, inputs: seq<TxInput>)
    requires SignedSoFar(env, candidates, sk, inputs, candidates.Keys)
    ensures InputsFromPlan(env, candidates, sk, inputs)
    ensures forall id :: id in candidates ==> |candidates[id]| == 1
  {
    assert |candidates| == |candidates.Keys|;
  }

  /** The input loop's state: `inputs` signs exactly the sources in `done`,
      one input each, all of them planned with a single output. */
  predicate SignedSoFar(env: Env, candidates: map<seq<byte>, seq<int>>, sk: PrivateKey,
                        inputs: seq<TxInput>, done: set<seq<byte>>)
  {
    && (forall id :: id in done ==> id in candidates && |candidates[id]| == 1)
    && |inputs| == |done|
    && SignedWithin(env, candidates, sk, inputs, done)
    && (forall id :: id in done ==> id in Sources(inputs))
    && DistinctSources(inputs)
  }

  predicate SignedWithin(env: Env, candidates: map<seq<byte>, seq<int>>, sk: PrivateKey,
                         inputs: seq<TxInput>, done: set<seq<byte>>)
  {
    forall j :: 0 <= j < |inputs| ==> inputs[j].sourceTxId in done && SignedFromPlan(env, candidates, sk, inputs[j])
  }

  predicate DistinctSources(inputs: seq<TxInput>) {
    forall j1, j2 :: 0 <= j1 < j2 < |inputs| ==> inputs[j1].sourceTxId != inputs[j2].sourceTxId
  }

  function SignedInput(env: Env, candidates: map<seq<byte>, seq<int>>, sk: PrivateKey, id: seq<byte>): TxInput
    requires id in candidates && |candidates[id]| == 1
  {
    TxInput(id, candidates[id][0], env.sign(TxInput(id, candidates[id][0], []), sk))
  }

  lemma SignOneMore(env: Env, candidates: map<seq<byte>, seq<int>>, sk: PrivateKey,
                    inputs: seq<TxInput>, done: set<seq<byte>>, id: seq<byte>)
    requires SignedSoFar(env, candidates, sk, inputs, done)
    requires id in candidates && |candidates[id]| == 1 && id !in done
    ensures SignedSoFar(env, candidates, sk, inputs + [SignedInput(env, candidates, sk, id)], done + {id})
  {
    assert |done + {id}| == |done| + 1;
    SignedWithinStep(env, candidates, sk, inputs, done, id);
    DistinctStep(env, candidates, sk, inputs, done, id);
    SourcesStep(env, candidates, sk, inputs, done, id);
  }

  lemma SourcesStep(env: Env, candidates: map<seq<byte>, seq<int>>, sk: PrivateKey,
                    inputs: seq<TxInput>, done: set<seq<byte>>, id: seq<byte>)
    requires forall x :: x in done ==> x in Sources(inputs)
    requires id in candidates && |candidates[id]| == 1
    ensures forall x :: x in done + {id} ==> x in Sources(inputs + [SignedInput(env, candidates, sk, id)])
  {
    var next := inputs + [SignedInput(env, candidates, sk, id)];
    assert Sources(next) == Sources(inputs) + [id];
  }

  lemma SignedWithinStep(env: Env, candidates: map<seq<byte>, seq<int>>, sk: PrivateKey,
                         inputs: seq<TxInput>, done: set<seq<byte>>, id: seq<byte>)
    requires SignedWithin(env, candidates, sk, inputs, done)
    requires id in candidates && |candidates[id]| == 1
    ensures SignedWithin(env, candidates, sk, inputs + [SignedInput(env, candidates, sk, id)], done + {id})
  {
    var next := inputs + [SignedInput(env, candidates, sk, id)];
    forall j | 0 <= j < |next|
      ensures next[j].sourceTxId in done + {id} && SignedFromPlan(env, candidates, sk, next[j])
    {
      if j < |inputs| {
        assert next[j] == inputs[j];
      }
    }
  }

  lemma DistinctStep(env: Env, candidates: map<seq<byte>, seq<int>>, sk: PrivateKey,
                     inputs: seq<TxInput>, done: set<seq<byte>>, id: seq<byte>)
    requires SignedWithin(env, candidates, sk, inputs, done) && DistinctSources(inputs)
    requires id in candidates && |candidates[id]| == 1 && id !in done
    ensures DistinctSources(inputs + [SignedInput(env, candidates, sk, id)])
  {
    var next := inputs + [SignedInput(env, candidates, sk, id)];
    forall j1, j2 | 0 <= j1 < j2 < |next|
      ensures next[j1].sourceTxId != next[j2].sourceTxId
    {
      assert next[j1] == inputs[j1] && inputs[j1].sourceTxId in done;
      if j2 < |inputs| {
        assert next[j2] == inputs[j2];
      }
    }
  }
}
