/** `ValidateBlock` of src/blockchain/blockchain.go, apart from the store
    reads: the genesis rules, the order of the checks on a non-genesis block,
    the validator's view of spendable outputs, and the per-transaction and
    per-input checks. */
module Validation {
  import opened Numeric
  import opened Wrappers
  import opened Utils
  import opened Config
  import opened Transaction
  import opened Platform
  import opened Blocks
  import opened Ledger

  /** An address the wallets know, with the public key its inputs are checked
      against. */
  datatype KnownAddress = KnownAddress(publicKey: PublicKey, address: Address)

  /** What the validator's two maps hold under one output key: the source
      transaction (`allUTXOMap`) and the known address it pays
      (`UTXOAddrMap`). Both maps are written together, so one map of pairs
      stands for them. */
  datatype Source = Source(tx: Transaction, owner: KnownAddress)

  type View = map<UtxoKey, Source>

  // ---- the view of spendable outputs ----

  /** Records the outputs among the first `k` of `tx` that pay `ka`, later
      writes replacing earlier ones. */
  function TxIntoView(view: View, tx: Transaction, ka: KnownAddress, k: nat): View
    requires k <= |tx.outputs|
  {
    if k == 0 then view
    else
      var v := TxIntoView(view, tx, ka, k - 1);
      if BelongsTo(tx.outputs[k - 1], ka.address) then v[UtxoKey(tx.txId, k - 1) := Source(tx, ka)] else v
  }

  function TxsIntoView(view: View, txs: seq<Transaction>, ka: KnownAddress): View {
    if txs == [] then view
    else
      var last := txs[|txs| - 1];
      TxIntoView(TxsIntoView(view, txs[..|txs| - 1], ka), last, ka, |last.outputs|)
  }

  /** The view: for every known address in turn, every output paying it of
      every transaction its walk lists. */
  function BuildView(env: Env, chain: seq<Block>, kas: seq<KnownAddress>): View {
    if kas == [] then map[]
    else
      var ka := kas[|kas| - 1];
      TxsIntoView(BuildView(env, chain, kas[..|kas| - 1]), Txs(UnspentOutputs(env, chain, ka.address, ka.publicKey)), ka)
  }

  /** Each key of the view names an existing output of the transaction stored
      under it, and that output pays the stored owner: the lookup
      `sourceTx.TxOutputList[idx]` stays in range. */
  predicate ViewSound(view: View) {
    forall key :: key in view ==>
      && view[key].tx.txId == key.txId
      && 0 <= key.idx < |view[key].tx.outputs|
      && BelongsTo(view[key].tx.outputs[key.idx], view[key].owner.address)
  }

  lemma {:induction false} TxIntoViewSound(view: View, tx: Transaction, ka: KnownAddress, k: nat)
    requires k <= |tx.outputs| && ViewSound(view)
    ensures ViewSound(TxIntoView(view, tx, ka, k))
  {
    if k > 0 {
      TxIntoViewSound(view, tx, ka, k - 1);
    }
  }

  lemma {:induction false} TxsIntoViewSound(view: View, txs: seq<Transaction>, ka: KnownAddress)
    requires ViewSound(view)
    ensures ViewSound(TxsIntoView(view, txs, ka))
  {
    if txs != [] {
      var last := txs[|txs| - 1];
      TxsIntoViewSound(view, txs[..|txs| - 1], ka);
      TxIntoViewSound(TxsIntoView(view, txs[..|txs| - 1], ka), last, ka, |last.outputs|);
    }
  }

  /** The view built from the walks is sound. */
  lemma {:induction false} BuildViewSound(env: Env, chain: seq<Block>, kas: seq<KnownAddress>)
    ensures ViewSound(BuildView(env, chain, kas))
  {
    if kas != [] {
      var ka := kas[|kas| - 1];
      BuildViewSound(env, chain, kas[..|kas| - 1]);
      TxsIntoViewSound(BuildView(env, chain, kas[..|kas| - 1]), Txs(UnspentOutputs(env, chain, ka.address, ka.publicKey)), ka);
    }
  }

  /** The value of the output a key names, per the view. */
  function ValueAt(view: View, key: UtxoKey): int
    requires ViewSound(view)
  {
    if key in view then view[key].tx.outputs[key.idx].value else 0
  }

  /** The running input sum once the output `key` names is drawn, exactly;
      `CheckTxInputs` keeps it wrapped to 64 bits instead. */
  function AddInputValue(sum: int, view: View, key: UtxoKey): int
    requires ViewSound(view)
  {
    sum + ValueAt(view, key)
  }

  // ---- the checks on transactions ----

  datatype InputsOutcome = InputsPassed(spent: set<UtxoKey>, inputSum: int) | InputFailed(status: BlockStatus)

  /** The input loop from input `m`: each input must name an output in the
      view, be signed for that output's owner, and not name an output already
      spent in this block; the values add up (exactly here: the comparison
      in `CheckTxs` wraps the total, which by `Wrap64Add` is what Go's
      wrapping additions leave). */
  function CheckInputs(env: Env, view: View, ins: seq<TxInput>, m: nat, spent: set<UtxoKey>, sum: int): (r: InputsOutcome)
    requires ViewSound(view) && m <= |ins|
    decreases |ins| - m
  {
    if m == |ins| then InputsPassed(spent, sum)
    else
      var key := InputKey(ins[m]);
      if key !in view then InputFailed(SourceTXONotFound)
      else if !env.verify(ins[m], view[key].owner.publicKey) then InputFailed(WrongTXInputSignature)
      else if key in spent then InputFailed(DoubleSpending)
      else CheckInputs(env, view, ins, m + 1, spent + {key}, AddInputValue(sum, view, key))
  }

  /** The transaction loop from transaction `j`, with the coinbase count and
      the outputs spent so far in the block. A coinbase transaction is only
      counted; any other must carry its recomputed id, pass the input checks
      and pay out what it spends, both sums taken in 64-bit arithmetic. */
  function CheckTxs(env: Env, view: View, txs: seq<Transaction>, j: nat, coinbaseCount: int, spent: set<UtxoKey>): BlockStatus
    requires ViewSound(view) && j <= |txs|
    decreases |txs| - j
  {
    if j == |txs| then Verified
    else
      var tx := txs[j];
      if env.isCoinbase(tx) then
        if coinbaseCount + 1 > 1 then TooManyCoinbaseTX
        else CheckTxs(env, view, txs, j + 1, coinbaseCount + 1, spent)
      else if env.txIdOf(tx.inputs, tx.outputs) != tx.txId then WrongTxID
      else
        match CheckInputs(env, view, tx.inputs, 0, spent, 0)
        case InputFailed(status) => status
        case InputsPassed(spent', inputSum) =>
          if Wrap64(SumOutputs(tx.outputs)) != Wrap64(inputSum) then InputSumOutputSumMismatch
          else CheckTxs(env, view, txs, j + 1, coinbaseCount, spent')
  }

  /** The verdict on a genesis block (empty previous hash), given whether
      its proof of work holds. */
  function GenesisVerdict(env: Env, b: Block, powOk: bool): Option<BlockStatus> {
    if !powOk then Some(WrongGenesis)
    else if b.data != env.genesisData then Some(WrongGenesis)
    else if b.difficulty != InitialChainDifficulty then Some(WrongGenesis)
    else if |b.txs| != 1 then Some(WrongGenesis)
    else if !env.isCoinbase(b.txs[0]) then Some(WrongGenesis)
    else if |b.txs[0].outputs| == 0 then None
    else if b.txs[0].outputs[0].address != env.genesisData then Some(WrongGenesis)
    else Some(Verified)
  }

  /** `ValidateBlock`, given whether the store holds the previous hash and the
      view (None when building it does not return). A genesis block is
      judged by its own shape. None is a panic: building the proof-of-work
      target (`PowCheck`), or the out-of-range read of a genesis transaction
      without outputs. */
  function ValidateBlockSpec(env: Env, b: Block, prevFound: bool, view: Option<View>): Option<BlockStatus>
    requires view.Some? ==> ViewSound(view.value)
  {
    if b.prevHash == [] then
      if PowCheck(env, b).None? then None else GenesisVerdict(env, b, PowCheck(env, b).value)
    else if !prevFound then Some(PrevBlockNotFound)
    else if PowCheck(env, b).None? then None
    else if !PowValid(env, b) then Some(HashMismatch)
    else if view.None? then None
    else Some(CheckTxs(env, view.value, b.txs, 0, 0, {}))
  }

  // ---- what a verdict means ----

  /** The genesis shape the validator demands. */
  predicate GenesisShape(env: Env, b: Block) {
    && PowValid(env, b)
    && b.data == env.genesisData
    && b.difficulty == InitialChainDifficulty
    && |b.txs| == 1
    && env.isCoinbase(b.txs[0])
    && |b.txs[0].outputs| >= 1
    && b.txs[0].outputs[0].address == env.genesisData
  }

  /** A genesis block is Verified exactly when it has the genesis shape; it
      is otherwise WrongGenesis, except that the validator panics when the
      target cannot be built or when a transaction without outputs passes
      every earlier rule. */
  lemma GenesisRule(env: Env, b: Block, prevFound: bool, view: Option<View>)
    requires view.Some? ==> ViewSound(view.value)
    requires b.prevHash == []
    ensures ValidateBlockSpec(env, b, prevFound, view) == Some(Verified) <==> GenesisShape(env, b)
    ensures ValidateBlockSpec(env, b, prevFound, view).None? <==>
      PowCheck(env, b).None? ||
      (PowValid(env, b) && b.data == env.genesisData && b.difficulty == InitialChainDifficulty
       && |b.txs| == 1 && env.isCoinbase(b.txs[0]) && |b.txs[0].outputs| == 0)
    ensures ValidateBlockSpec(env, b, prevFound, view) in {None, Some(Verified), Some(WrongGenesis)}
  {
  }

  /** The block `Genesis` mines at the initial difficulty passes the genesis
      rule whenever its transaction counts as coinbase. */
  lemma MinedGenesisVerified(env: Env, g: Block, prevFound: bool, view: Option<View>)
    requires view.Some? ==> ViewSound(view.value)
    requires g.prevHash == [] && g.data == env.genesisData && g.difficulty == InitialChainDifficulty
    requires |g.txs| == 1 && g.txs[0].outputs == [TxOutput(MiningReward, env.genesisData)]
    requires PowValid(env, g) && env.isCoinbase(g.txs[0])
    ensures ValidateBlockSpec(env, g, prevFound, view) == Some(Verified)
  {
    GenesisRule(env, g, prevFound, view);
  }

  /** For a non-genesis block a missing parent is reported before the proof
      of work is looked at, and a failing proof of work before any
      transaction; a target that cannot be built panics once the parent is
      found. */
  lemma NonGenesisCheckOrder(env: Env, b: Block, prevFound: bool, view: Option<View>)
    requires view.Some? ==> ViewSound(view.value)
    requires b.prevHash != []
    ensures !prevFound ==> ValidateBlockSpec(env, b, prevFound, view) == Some(PrevBlockNotFound)
    ensures prevFound && PowCheck(env, b).None? ==> ValidateBlockSpec(env, b, prevFound, view).None?
    ensures prevFound && PowCheck(env, b) == Some(false) ==> ValidateBlockSpec(env, b, prevFound, view) == Some(HashMismatch)
  {
  }

  /** As written, a block above difficulty 256 that reaches the proof-of-work
      check (a genesis block, or one whose parent is stored) crashes the
      validator: `uint(256 - difficulty)` wraps to a shift near 2^64. */
  lemma OversizedDifficultyPanics(env: Env, b: Block, prevFound: bool, view: Option<View>)
    requires view.Some? ==> ViewSound(view.value)
    requires IsInt64(b.difficulty) && b.difficulty > 256
    requires b.prevHash == [] || prevFound
    ensures ValidateBlockSpec(env, b, prevFound, view).None?
  {
    TargetDefined(b.difficulty);
  }

  /** The validator with the difficulty bounded before the target is built:
      a difficulty outside 0..256 is a wrong genesis, or a hash mismatch once
      the parent is found. */
  function ValidateBlockGuarded(env: Env, b: Block, prevFound: bool, view: Option<View>): Option<BlockStatus>
    requires view.Some? ==> ViewSound(view.value)
  {
    if 0 <= b.difficulty <= 256 then ValidateBlockSpec(env, b, prevFound, view)
    else if b.prevHash == [] then Some(WrongGenesis)
    else if !prevFound then Some(PrevBlockNotFound)
    else Some(HashMismatch)
  }

  /** The guarded validator never panics on the target: it fails only where
      the view is missing or a genesis transaction has no outputs, rejects
      every out-of-range difficulty, and agrees with the validator as written
      on difficulties 0..256. */
  lemma GuardedValidatorTotal(env: Env, b: Block, prevFound: bool, view: Option<View>)
    requires view.Some? ==> ViewSound(view.value)
    ensures ValidateBlockGuarded(env, b, prevFound, view).None? ==>
      && PowCheck(env, b).Some?
      && (b.prevHash == [] ==> |b.txs| == 1 && |b.txs[0].outputs| == 0)
      && (b.prevHash != [] ==> view.None?)
    ensures !(0 <= b.difficulty <= 256) ==>
      ValidateBlockGuarded(env, b, prevFound, view).Some? && ValidateBlockGuarded(env, b, prevFound, view) != Some(Verified)
    ensures 0 <= b.difficulty <= 256 ==> ValidateBlockGuarded(env, b, prevFound, view) == ValidateBlockSpec(env, b, prevFound, view)
  {
  }

  /** The keys the inputs from `m` on name. */
  function KeysFrom(ins: seq<TxInput>, m: nat): set<UtxoKey> {
    set i | m <= i < |ins| :: InputKey(ins[i])
  }

  /** The values the inputs from `m` on draw from the view. */
  function InputValueFrom(view: View, ins: seq<TxInput>, m: nat): int
    requires ViewSound(view) && m <= |ins|
    decreases |ins| - m
  {
    if m == |ins| then 0 else ValueAt(view, InputKey(ins[m])) + InputValueFrom(view, ins, m + 1)
  }

  /** Every input from `m` on names an output in the view and is signed for
      its owner. */
  predicate AuthorisedFrom(env: Env, view: View, ins: seq<TxInput>, m: nat) {
    forall i :: m <= i < |ins| ==>
      InputKey(ins[i]) in view && env.verify(ins[i], view[InputKey(ins[i])].owner.publicKey)
  }

  /** No two inputs from `m` on name the same output. */
  predicate DistinctFrom(ins: seq<TxInput>, m: nat) {
    forall a, b :: m <= a < b < |ins| ==> InputKey(ins[a]) != InputKey(ins[b])
  }

  /** No input from `m` on names an output in `spent`. */
  predicate UnspentFrom(ins: seq<TxInput>, m: nat, spent: set<UtxoKey>) {
    forall i :: m <= i < |ins| ==> InputKey(ins[i]) !in spent
  }

  lemma InputsStep(ins: seq<TxInput>, m: nat, spent: set<UtxoKey>)
    requires m < |ins|
    ensures DistinctFrom(ins, m) <==> DistinctFrom(ins, m + 1) && InputKey(ins[m]) !in KeysFrom(ins, m + 1)
    ensures UnspentFrom(ins, m, spent) <==> InputKey(ins[m]) !in spent && UnspentFrom(ins, m + 1, spent)
    ensures UnspentFrom(ins, m + 1, spent + {InputKey(ins[m])}) <==>
      UnspentFrom(ins, m + 1, spent) && InputKey(ins[m]) !in KeysFrom(ins, m + 1)
    ensures KeysFrom(ins, m) == {InputKey(ins[m])} + KeysFrom(ins, m + 1)
  {
    var key := InputKey(ins[m]);
    if key in KeysFrom(ins, m + 1) {
      var i :| m + 1 <= i < |ins| && InputKey(ins[i]) == key;
      assert !UnspentFrom(ins, m + 1, spent + {key});
    }
  }

  lemma AuthorisedStep(env: Env, view: View, ins: seq<TxInput>, m: nat)
    requires m < |ins|
    ensures AuthorisedFrom(env, view, ins, m) <==>
      && InputKey(ins[m]) in view && env.verify(ins[m], view[InputKey(ins[m])].owner.publicKey)
      && AuthorisedFrom(env, view, ins, m + 1)
  {
  }

  /** An input failure is one of the three input statuses, and a pass only
      adds to the spent set. */
  lemma {:induction false} CheckInputsOutcome(env: Env, view: View, ins: seq<TxInput>, m: nat, spent: set<UtxoKey>, sum: int)
    requires ViewSound(view) && m <= |ins|
    ensures var r := CheckInputs(env, view, ins, m, spent, sum);
      && (r.InputFailed? ==> r.status in {SourceTXONotFound, WrongTXInputSignature, DoubleSpending})
      && (r.InputsPassed? ==> spent <= r.spent)
    decreases |ins| - m
  {
    if m < |ins| {
      var key := InputKey(ins[m]);
      CheckInputsAt(env, view, ins, m, spent, sum);
      if key in view && env.verify(ins[m], view[key].owner.publicKey) && key !in spent {
        CheckInputsOutcome(env, view, ins, m + 1, spent + {key}, AddInputValue(sum, view, key));
      }
    }
  }

  /** One step of the input loop: the input passes its own checks and the
      loop goes on. */
  lemma CheckInputsUnfold(env: Env, view: View, ins: seq<TxInput>, m: nat, spent: set<UtxoKey>, sum: int)
    requires ViewSound(view) && m < |ins|
    ensures var key := InputKey(ins[m]);
      CheckInputs(env, view, ins, m, spent, sum).InputsPassed? <==>
        && key in view && env.verify(ins[m], view[key].owner.publicKey) && key !in spent
        && CheckInputs(env, view, ins, m + 1, spent + {key}, AddInputValue(sum, view, key)).InputsPassed?
  {
  }

  /** Inputs that pass the checks from `m` on are authorised, distinct and
      unspent. */
  lemma {:induction false} CheckInputsSound(env: Env, view: View, ins: seq<TxInput>, m: nat, spent: set<UtxoKey>, sum: int)
    requires ViewSound(view) && m <= |ins|
    requires CheckInputs(env, view, ins, m, spent, sum).InputsPassed?
    ensures AuthorisedFrom(env, view, ins, m) && DistinctFrom(ins, m) && UnspentFrom(ins, m, spent)
    decreases |ins| - m
  {
    if m < |ins| {
      var key := InputKey(ins[m]);
      CheckInputsUnfold(env, view, ins, m, spent, sum);
      CheckInputsSound(env, view, ins, m + 1, spent + {key}, AddInputValue(sum, view, key));
      InputsStep(ins, m, spent);
      AuthorisedStep(env, view, ins, m);
    }
  }

  /** Inputs that are authorised, distinct and unspent from `m` on pass the
      checks. */
  lemma {:induction false} CheckInputsComplete(env: Env, view: View, ins: seq<TxInput>, m: nat, spent: set<UtxoKey>, sum: int)
    requires ViewSound(view) && m <= |ins|
    requires AuthorisedFrom(env, view, ins, m) && DistinctFrom(ins, m) && UnspentFrom(ins, m, spent)
    ensures CheckInputs(env, view, ins, m, spent, sum).InputsPassed?
    decreases |ins| - m
  {
    if m < |ins| {
      var key := InputKey(ins[m]);
      InputCompleteStep(env, view, ins, m, spent);
      CheckInputsComplete(env, view, ins, m + 1, spent + {key}, AddInputValue(sum, view, key));
      CheckInputsUnfold(env, view, ins, m, spent, sum);
    }
  }

  /** Authorised, distinct, unspent inputs from `m`: input `m` passes its
      checks, and the rest stay so once its key is spent. */
  lemma InputCompleteStep(env: Env, view: View, ins: seq<TxInput>, m: nat, spent: set<UtxoKey>)
    requires m < |ins|
    requires AuthorisedFrom(env, view, ins, m) && DistinctFrom(ins, m) && UnspentFrom(ins, m, spent)
    ensures var key := InputKey(ins[m]);
      && key in view && env.verify(ins[m], view[key].owner.publicKey) && key !in spent
      && AuthorisedFrom(env, view, ins, m + 1) && DistinctFrom(ins, m + 1) && UnspentFrom(ins, m + 1, spent + {key})
  {
    InputsStep(ins, m, spent);
    AuthorisedStep(env, view, ins, m);
  }

  /** The input checks pass from `m` on exactly when every later input is
      authorised and their keys are distinct and unspent. */
  lemma CheckInputsPass(env: Env, view: View, ins: seq<TxInput>, m: nat, spent: set<UtxoKey>, sum: int)
    requires ViewSound(view) && m <= |ins|
    ensures CheckInputs(env, view, ins, m, spent, sum).InputsPassed? <==>
      AuthorisedFrom(env, view, ins, m) && DistinctFrom(ins, m) && UnspentFrom(ins, m, spent)
  {
    if CheckInputs(env, view, ins, m, spent, sum).InputsPassed? {
      CheckInputsSound(env, view, ins, m, spent, sum);
    }
    if AuthorisedFrom(env, view, ins, m) && DistinctFrom(ins, m) && UnspentFrom(ins, m, spent) {
      CheckInputsComplete(env, view, ins, m, spent, sum);
    }
  }

  /** When the input checks pass from `m` on, the spent set grows by the
      keys the inputs name and the sum by the values they draw. */
  lemma CheckInputsResult(env: Env, view: View, ins: seq<TxInput>, m: nat, spent: set<UtxoKey>, sum: int)
    requires ViewSound(view) && m <= |ins|
    requires CheckInputs(env, view, ins, m, spent, sum).InputsPassed?
    ensures CheckInputs(env, view, ins, m, spent, sum).spent == spent + KeysFrom(ins, m)
    ensures CheckInputs(env, view, ins, m, spent, sum).inputSum == sum + InputValueFrom(view, ins, m)
  {
    CheckInputsSpent(env, view, ins, m, spent, sum);
    CheckInputsSum(env, view, ins, m, spent, sum);
  }

  lemma {:induction false} CheckInputsSpent(env: Env, view: View, ins: seq<TxInput>, m: nat, spent: set<UtxoKey>, sum: int)
    requires ViewSound(view) && m <= |ins|
    requires CheckInputs(env, view, ins, m, spent, sum).InputsPassed?
    ensures CheckInputs(env, view, ins, m, spent, sum).spent == spent + KeysFrom(ins, m)
    decreases |ins| - m
  {
    if m < |ins| {
      var key := InputKey(ins[m]);
      CheckInputsAt(env, view, ins, m, spent, sum);
      CheckInputsSpent(env, view, ins, m + 1, spent + {key}, AddInputValue(sum, view, key));
      KeysFromStep(ins, m);
      UnionShift(spent, key, KeysFrom(ins, m + 1));
    } else {
      assert KeysFrom(ins, m) == {};
    }
  }

  lemma {:induction false} CheckInputsSum(env: Env, view: View, ins: seq<TxInput>, m: nat, spent: set<UtxoKey>, sum: int)
    requires ViewSound(view) && m <= |ins|
    requires CheckInputs(env, view, ins, m, spent, sum).InputsPassed?
    ensures CheckInputs(env, view, ins, m, spent, sum).inputSum == sum + InputValueFrom(view, ins, m)
    decreases |ins| - m
  {
    if m < |ins| {
      var key := InputKey(ins[m]);
      CheckInputsAt(env, view, ins, m, spent, sum);
      CheckInputsSum(env, view, ins, m + 1, spent + {key}, AddInputValue(sum, view, key));
    }
  }

  lemma UnionShift(a: set<UtxoKey>, k: UtxoKey, b: set<UtxoKey>)
    ensures a + {k} + b == a + ({k} + b)
  {
  }

  lemma KeysFromStep(ins: seq<TxInput>, m: nat)
    requires m < |ins|
    ensures KeysFrom(ins, m) == {InputKey(ins[m])} + KeysFrom(ins, m + 1)
  {
  }

  lemma {:induction false} UnspentFromDisjoint(ins: seq<TxInput>, m: nat, spent: set<UtxoKey>)
    ensures UnspentFrom(ins, m, spent) <==> KeysFrom(ins, m) !! spent
  {
    if !UnspentFrom(ins, m, spent) {
      var i :| m <= i < |ins| && InputKey(ins[i]) in spent;
      assert InputKey(ins[i]) in KeysFrom(ins, m);
    }
  }

  // ---- the transactions of a block, declaratively ----

  /** How many of the first `j` transactions are coinbase. */
  function CoinbaseCount(env: Env, txs: seq<Transaction>, j: nat): nat
    requires j <= |txs|
  {
    if j == 0 then 0 else CoinbaseCount(env, txs, j - 1) + (if env.isCoinbase(txs[j - 1]) then 1 else 0)
  }

  lemma {:induction false} CoinbaseCountMonotone(env: Env, txs: seq<Transaction>, j: nat, k: nat)
    requires j <= k <= |txs|
    ensures CoinbaseCount(env, txs, j) <= CoinbaseCount(env, txs, k)
    decreases k - j
  {
    if j < k {
      CoinbaseCountMonotone(env, txs, j, k - 1);
    }
  }

  /** The outputs the non-coinbase transactions among the first `j` spend. */
  function KeysUpTo(env: Env, txs: seq<Transaction>, j: nat): set<UtxoKey>
    requires j <= |txs|
  {
    if j == 0 then {}
    else KeysUpTo(env, txs, j - 1) + (if env.isCoinbase(txs[j - 1]) then {} else KeysFrom(txs[j - 1].inputs, 0))
  }

  /** A non-coinbase transaction on its own: its id is the one its contents
      derive, its inputs are authorised and name distinct outputs, and it
      pays out what they hold modulo 2^64 (the sums are Go `int`s). */
  predicate TxValid(env: Env, view: View, tx: Transaction)
    requires ViewSound(view)
  {
    && env.txIdOf(tx.inputs, tx.outputs) == tx.txId
    && AuthorisedFrom(env, view, tx.inputs, 0)
    && DistinctFrom(tx.inputs, 0)
    && Wrap64(SumOutputs(tx.outputs)) == Wrap64(InputValueFrom(view, tx.inputs, 0))
  }

  /** Transaction `k` is valid and spends nothing an earlier transaction of
      the block spends. */
  predicate TxValidAt(env: Env, view: View, txs: seq<Transaction>, k: nat)
    requires ViewSound(view) && k < |txs|
  {
    TxValid(env, view, txs[k]) && KeysFrom(txs[k].inputs, 0) !! KeysUpTo(env, txs, k)
  }

  /** Every non-coinbase transaction from `j` on is valid at its place. */
  predicate TxsValidFrom(env: Env, view: View, txs: seq<Transaction>, j: nat)
    requires ViewSound(view)
  {
    forall k :: j <= k < |txs| && !env.isCoinbase(txs[k]) ==> TxValidAt(env, view, txs, k)
  }

  /** A block's transactions: at most one coinbase, and every other one
      valid with no output spent twice within the block. */
  predicate BlockTxsValid(env: Env, view: View, txs: seq<Transaction>)
    requires ViewSound(view)
  {
    CoinbaseCount(env, txs, |txs|) <= 1 && TxsValidFrom(env, view, txs, 0)
  }

  /** One non-coinbase step of the transaction loop. */
  lemma CheckTxStep(env: Env, view: View, txs: seq<Transaction>, j: nat, c: int, spent: set<UtxoKey>)
    requires ViewSound(view) && j < |txs| && !env.isCoinbase(txs[j])
    ensures var tx := txs[j];
      CheckTxs(env, view, txs, j, c, spent) == Verified <==>
        && env.txIdOf(tx.inputs, tx.outputs) == tx.txId
        && CheckInputs(env, view, tx.inputs, 0, spent, 0).InputsPassed?
        && Wrap64(SumOutputs(tx.outputs)) == Wrap64(CheckInputs(env, view, tx.inputs, 0, spent, 0).inputSum)
        && CheckTxs(env, view, txs, j + 1, c, CheckInputs(env, view, tx.inputs, 0, spent, 0).spent) == Verified
  {
    CheckInputsOutcome(env, view, txs[j].inputs, 0, spent, 0);
  }

  /** A non-coinbase transaction passes its checks against the outputs
      spent so far exactly when it is valid and spends none of them; the
      spent set then grows by its keys. */
  lemma TxCheckMeaning(env: Env, view: View, tx: Transaction, spent: set<UtxoKey>)
    requires ViewSound(view)
    ensures var r := CheckInputs(env, view, tx.inputs, 0, spent, 0);
      (&& env.txIdOf(tx.inputs, tx.outputs) == tx.txId
       && r.InputsPassed? && Wrap64(SumOutputs(tx.outputs)) == Wrap64(r.inputSum))
      <==> TxValid(env, view, tx) && KeysFrom(tx.inputs, 0) !! spent
    ensures var r := CheckInputs(env, view, tx.inputs, 0, spent, 0);
      r.InputsPassed? ==> r.spent == spent + KeysFrom(tx.inputs, 0)
  {
    var r := CheckInputs(env, view, tx.inputs, 0, spent, 0);
    CheckInputsPass(env, view, tx.inputs, 0, spent, 0);
    UnspentFromDisjoint(tx.inputs, 0, spent);
    if r.InputsPassed? {
      CheckInputsResult(env, view, tx.inputs, 0, spent, 0);
      assert r.inputSum == InputValueFrom(view, tx.inputs, 0);
    }
  }

  /** One coinbase step of the transaction loop. */
  lemma CheckCoinbaseStep(env: Env, view: View, txs: seq<Transaction>, j: nat)
    requires ViewSound(view) && j < |txs| && env.isCoinbase(txs[j])
    ensures CoinbaseCount(env, txs, j + 1) == CoinbaseCount(env, txs, j) + 1
    ensures KeysUpTo(env, txs, j + 1) == KeysUpTo(env, txs, j)
    ensures CheckTxs(env, view, txs, j, CoinbaseCount(env, txs, j), KeysUpTo(env, txs, j)) == Verified <==>
      CoinbaseCount(env, txs, j + 1) <= 1
      && CheckTxs(env, view, txs, j + 1, CoinbaseCount(env, txs, j + 1), KeysUpTo(env, txs, j + 1)) == Verified
  {
    CoinbaseCounts(env, txs, j);
  }

  /** A coinbase transaction adds one to the coinbase count and nothing to
      the spent outputs. */
  lemma CoinbaseCounts(env: Env, txs: seq<Transaction>, j: nat)
    requires j < |txs| && env.isCoinbase(txs[j])
    ensures CoinbaseCount(env, txs, j + 1) == CoinbaseCount(env, txs, j) + 1
    ensures KeysUpTo(env, txs, j + 1) == KeysUpTo(env, txs, j)
  {
  }

  /** One non-coinbase step, in terms of the block's own counts. */
  lemma CheckValidStep(env: Env, view: View, txs: seq<Transaction>, j: nat)
    requires ViewSound(view) && j < |txs| && !env.isCoinbase(txs[j])
    ensures CheckTxs(env, view, txs, j, CoinbaseCount(env, txs, j), KeysUpTo(env, txs, j)) == Verified <==>
      TxValidAt(env, view, txs, j)
      && CheckTxs(env, view, txs, j + 1, CoinbaseCount(env, txs, j + 1), KeysUpTo(env, txs, j + 1)) == Verified
  {
    CheckTxStep(env, view, txs, j, CoinbaseCount(env, txs, j), KeysUpTo(env, txs, j));
    TxCheckMeaning(env, view, txs[j], KeysUpTo(env, txs, j));
    NonCoinbaseCounts(env, txs, j);
  }

  /** A non-coinbase transaction adds its input keys to the spent outputs
      and nothing to the coinbase count. */
  lemma NonCoinbaseCounts(env: Env, txs: seq<Transaction>, j: nat)
    requires j < |txs| && !env.isCoinbase(txs[j])
    ensures KeysUpTo(env, txs, j + 1) == KeysUpTo(env, txs, j) + KeysFrom(txs[j].inputs, 0)
    ensures CoinbaseCount(env, txs, j + 1) == CoinbaseCount(env, txs, j)
  {
  }

  lemma TxsValidStep(env: Env, view: View, txs: seq<Transaction>, j: nat)
    requires ViewSound(view) && j < |txs|
    ensures TxsValidFrom(env, view, txs, j) <==>
      (!env.isCoinbase(txs[j]) ==> TxValidAt(env, view, txs, j)) && TxsValidFrom(env, view, txs, j + 1)
  {
  }

  /** The transaction loop resumed at `j`, having counted the coinbase
      transactions and collected the spent outputs of the first `j`, ends
      Verified exactly when the rest of the block is valid. */
  lemma {:induction false} CheckTxsSound(env: Env, view: View, txs: seq<Transaction>, j: nat)
    requires ViewSound(view) && j <= |txs| && CoinbaseCount(env, txs, j) <= 1
    requires CheckTxs(env, view, txs, j, CoinbaseCount(env, txs, j), KeysUpTo(env, txs, j)) == Verified
    ensures CoinbaseCount(env, txs, |txs|) <= 1 && TxsValidFrom(env, view, txs, j)
    decreases |txs| - j
  {
    if j < |txs| {
      TxsValidStep(env, view, txs, j);
      if env.isCoinbase(txs[j]) {
        CheckCoinbaseStep(env, view, txs, j);
      } else {
        CheckValidStep(env, view, txs, j);
      }
      CheckTxsSound(env, view, txs, j + 1);
    }
  }

  /** One step of `CheckTxsComplete`: the rest of the block verifies, and so
      does transaction `j` in front of it. */
  lemma {:induction false} CompleteStep(env: Env, view: View, txs: seq<Transaction>, j: nat)
    requires ViewSound(view) && j < |txs|
    requires CoinbaseCount(env, txs, |txs|) <= 1 && TxsValidFrom(env, view, txs, j)
    ensures CheckTxs(env, view, txs, j, CoinbaseCount(env, txs, j), KeysUpTo(env, txs, j)) == Verified
    decreases |txs| - j, 0
  {
    TxsValidStep(env, view, txs, j);
    CheckTxsComplete(env, view, txs, j + 1);
    CoinbaseCountMonotone(env, txs, j + 1, |txs|);
    CompleteHead(env, view, txs, j);
  }

  /** Transaction `j` passes in front of a verified rest of the block. */
  lemma CompleteHead(env: Env, view: View, txs: seq<Transaction>, j: nat)
    requires ViewSound(view) && j < |txs| && CoinbaseCount(env, txs, j + 1) <= 1
    requires !env.isCoinbase(txs[j]) ==> TxValidAt(env, view, txs, j)
    requires CheckTxs(env, view, txs, j + 1, CoinbaseCount(env, txs, j + 1), KeysUpTo(env, txs, j + 1)) == Verified
    ensures CheckTxs(env, view, txs, j, CoinbaseCount(env, txs, j), KeysUpTo(env, txs, j)) == Verified
  {
    if env.isCoinbase(txs[j]) {
      CheckCoinbaseStep(env, view, txs, j);
    } else {
      CheckValidStep(env, view, txs, j);
    }
  }

  lemma {:induction false} CheckTxsComplete(env: Env, view: View, txs: seq<Transaction>, j: nat)
    requires ViewSound(view) && j <= |txs|
    requires CoinbaseCount(env, txs, |txs|) <= 1 && TxsValidFrom(env, view, txs, j)
    ensures CheckTxs(env, view, txs, j, CoinbaseCount(env, txs, j), KeysUpTo(env, txs, j)) == Verified
    decreases |txs| - j, 1
  {
    if j < |txs| {
      CompleteStep(env, view, txs, j);
    }
  }

  /** A non-genesis block whose parent is stored and whose proof of work
      holds is Verified exactly when its transactions are valid against the
      view: at most one coinbase, every other transaction with its derived
      id, authorised inputs naming outputs in the view, outputs summing to
      the inputs' value, and no output spent twice in the block. */
  lemma VerifiedMeansValidTxs(env: Env, b: Block, view: View)
    requires ViewSound(view) && b.prevHash != [] && PowValid(env, b)
    ensures ValidateBlockSpec(env, b, true, Some(view)) == Some(Verified) <==> BlockTxsValid(env, view, b.txs)
  {
    NonGenesisVerdict(env, b, view);
    TxsVerifiedIffValid(env, view, b.txs);
  }

  /** The transaction loop from the start ends Verified exactly when the
      block's transactions are valid. */
  lemma TxsVerifiedIffValid(env: Env, view: View, txs: seq<Transaction>)
    requires ViewSound(view)
    ensures CheckTxs(env, view, txs, 0, 0, {}) == Verified <==> BlockTxsValid(env, view, txs)
  {
    assert CoinbaseCount(env, txs, 0) == 0 && KeysUpTo(env, txs, 0) == {};
    if CheckTxs(env, view, txs, 0, 0, {}) == Verified {
      CheckTxsSound(env, view, txs, 0);
    }
    if BlockTxsValid(env, view, txs) {
      CheckTxsComplete(env, view, txs, 0);
    }
  }

  /** While neither sum leaves the int64 range, the wrapped comparison of
      `TxValid` is the exact one. */
  lemma TxBalanceExact(view: View, tx: Transaction)
    requires ViewSound(view)
    requires IsInt64(SumOutputs(tx.outputs)) && IsInt64(InputValueFrom(view, tx.inputs, 0))
    ensures Wrap64(SumOutputs(tx.outputs)) == Wrap64(InputValueFrom(view, tx.inputs, 0)) <==>
      SumOutputs(tx.outputs) == InputValueFrom(view, tx.inputs, 0)
  {
    Wrap64Id(SumOutputs(tx.outputs));
    Wrap64Id(InputValueFrom(view, tx.inputs, 0));
  }

  /** Outputs whose sum overflows balance a smaller input: outputs of
      MaxInt64, MaxInt64 and 12 add up to 2^64 + 10, which Go's `int` holds
      as 10, so a transaction drawing 10 that pays them out is Verified. */
  lemma OverflowingOutputsVerified(env: Env, view: View, tx: Transaction, a: Address)
    requires ViewSound(view) && !env.isCoinbase(tx) && env.txIdOf(tx.inputs, tx.outputs) == tx.txId
    requires CheckInputs(env, view, tx.inputs, 0, {}, 0).InputsPassed?
    requires CheckInputs(env, view, tx.inputs, 0, {}, 0).inputSum == 10
    requires tx.outputs == [TxOutput(MaxInt64, a), TxOutput(MaxInt64, a), TxOutput(12, a)]
    ensures SumOutputs(tx.outputs) == TwoTo64 + 10
    ensures CheckTxs(env, view, [tx], 0, 0, {}) == Verified
  {
    var outs := tx.outputs;
    assert outs[..2][..1] == outs[..1] && outs[..1][..0] == [];
    assert SumOutputs(outs[..1]) == MaxInt64;
    assert SumOutputs(outs[..2]) == 2 * MaxInt64;
    assert SumOutputs(outs) == TwoTo64 + 10;
    Wrap64Shift(10);
    Wrap64Id(10);
    assert CheckTxs(env, view, [tx], 1, 0, CheckInputs(env, view, tx.inputs, 0, {}, 0).spent) == Verified;
  }

  // ---- the loops of ValidateBlock ----

  /** The view-building loop: for each known address, the transactions its
      walk lists, and each of their outputs paying it. */
  method CollectView(env: Env, chain: seq<Block>, kas: seq<KnownAddress>) returns (view: View)
    ensures view == BuildView(env, chain, kas)
    ensures ViewSound(view)
  {
    view := map[];
    var n := 0;
    while n < |kas|
      invariant 0 <= n <= |kas|
      invariant view == BuildView(env, chain, kas[..n])
    {
      var ka := kas[n];
      var txs := FindUnspentTransactions(env, chain, ka.address, ka.publicKey);
      view := AddTxs(view, txs, ka);
      assert kas[..n + 1][..n] == kas[..n];
      n := n + 1;
    }
    assert kas[..n] == kas;
    BuildViewSound(env, chain, kas);
  }

  method AddTxs(view0: View, txs: seq<Transaction>, ka: KnownAddress) returns (view: View)
    ensures view == TxsIntoView(view0, txs, ka)
  {
    view := view0;
    var t := 0;
    while t < |txs|
      invariant 0 <= t <= |txs|
      invariant view == TxsIntoView(view0, txs[..t], ka)
    {
      view := AddTx(view, txs[t], ka);
      assert txs[..t + 1][..t] == txs[..t];
      t := t + 1;
    }
    assert txs[..t] == txs;
  }

  method AddTx(view0: View, tx: Transaction, ka: KnownAddress) returns (view: View)
    ensures view == TxIntoView(view0, tx, ka, |tx.outputs|)
  {
    view := view0;
    var k := 0;
    while k < |tx.outputs|
      invariant 0 <= k <= |tx.outputs|
      invariant view == TxIntoView(view0, tx, ka, k)
    {
      if BelongsTo(tx.outputs[k], ka.address) {
        view := view[UtxoKey(tx.txId, k) := Source(tx, ka)];
      }
      k := k + 1;
    }
  }

  /** The transaction loop. */
  method CheckTransactions(env: Env, view: View, txs: seq<Transaction>) returns (status: BlockStatus)
    requires ViewSound(view)
    ensures status == CheckTxs(env, view, txs, 0, 0, {})
  {
    var coinbaseCount := 0;
    var spent: set<UtxoKey> := {};
    var j := 0;
    while j < |txs|
      invariant 0 <= j <= |txs|
      invariant CheckTxs(env, view, txs, j, coinbaseCount, spent) == CheckTxs(env, view, txs, 0, 0, {})
    {
      var tx := txs[j];
      if env.isCoinbase(tx) {
        coinbaseCount := coinbaseCount + 1;
        if coinbaseCount > 1 {
          return TooManyCoinbaseTX;
        }
        j := j + 1;
        continue;
      }
      if env.txIdOf(tx.inputs, tx.outputs) != tx.txId {
        return WrongTxID;
      }
      var outcome := CheckTxInputs(env, view, tx.inputs, spent);
      if outcome.InputFailed? {
        return outcome.status;
      }
      var outputSum := OutputSum(tx.outputs);
      if outputSum != outcome.inputSum {
        return InputSumOutputSumMismatch;
      }
      spent := outcome.spent;
      j := j + 1;
    }
    return Verified;
  }

  /** An input outcome with its sum as Go's wrapping `int` leaves it. */
  function Wrapped(o: InputsOutcome): (w: InputsOutcome)
    ensures w.InputFailed? <==> o.InputFailed?
    ensures o.InputFailed? ==> w == o
    ensures o.InputsPassed? ==> w.spent == o.spent && IsInt64(w.inputSum) && w.inputSum == Wrap64(o.inputSum)
  {
    if o.InputsPassed? then o.(inputSum := Wrap64(o.inputSum)) else o
  }

  /** The input loop of one transaction, against the outputs spent so far in
      the block: the outcome of `CheckInputs`, with the sum accumulated in
      64-bit wrapping arithmetic. */
  method CheckTxInputs(env: Env, view: View, ins: seq<TxInput>, spent0: set<UtxoKey>) returns (r: InputsOutcome)
    requires ViewSound(view)
    ensures r == Wrapped(CheckInputs(env, view, ins, 0, spent0, 0))
  {
    var spent := spent0;
    var inputSum := 0;
    ghost var exact := 0;
    var m := 0;
    ghost var target := CheckInputs(env, view, ins, 0, spent0, 0);
    while m < |ins|
      invariant 0 <= m <= |ins|
      invariant inputSum == Wrap64(exact)
      invariant CheckInputs(env, view, ins, m, spent, exact) == target
    {
      var key := InputKey(ins[m]);
      if key !in view {
        CheckInputsAt(env, view, ins, m, spent, exact);
        return InputFailed(SourceTXONotFound);
      }
      if !env.verify(ins[m], view[key].owner.publicKey) {
        CheckInputsAt(env, view, ins, m, spent, exact);
        return InputFailed(WrongTXInputSignature);
      }
      if key in spent {
        CheckInputsAt(env, view, ins, m, spent, exact);
        return InputFailed(DoubleSpending);
      }
      WrappedInputStep(env, view, ins, m, spent, exact, inputSum);
      inputSum := Wrap64(inputSum + ValueAt(view, key));
      exact := AddInputValue(exact, view, key);
      spent := spent + {key};
      m := m + 1;
    }
    return InputsPassed(spent, inputSum);
  }

  /** One passing step of `CheckTxInputs`: the check goes on from the next
      input with the key spent, and the wrapped sum keeps tracking the exact
      one. */
  lemma WrappedInputStep(env: Env, view: View, ins: seq<TxInput>, m: nat, spent: set<UtxoKey>, exact: int, inputSum: int)
    requires ViewSound(view) && m < |ins|
    requires InputKey(ins[m]) in view && InputKey(ins[m]) !in spent
    requires env.verify(ins[m], view[InputKey(ins[m])].owner.publicKey)
    requires inputSum == Wrap64(exact)
    ensures var key := InputKey(ins[m]);
      && CheckInputs(env, view, ins, m + 1, spent + {key}, AddInputValue(exact, view, key)) == CheckInputs(env, view, ins, m, spent, exact)
      && Wrap64(inputSum + ValueAt(view, key)) == Wrap64(AddInputValue(exact, view, key))
  {
    CheckInputsAt(env, view, ins, m, spent, exact);
    Wrap64Add(exact, ValueAt(view, InputKey(ins[m])));
  }

  lemma CheckInputsAt(env: Env, view: View, ins: seq<TxInput>, m: nat, spent: set<UtxoKey>, sum: int)
    requires ViewSound(view) && m < |ins|
    ensures var key := InputKey(ins[m]);
      CheckInputs(env, view, ins, m, spent, sum) ==
        if key !in view then InputFailed(SourceTXONotFound)
        else if !env.verify(ins[m], view[key].owner.publicKey) then InputFailed(WrongTXInputSignature)
        else if key in spent then InputFailed(DoubleSpending)
        else CheckInputs(env, view, ins, m + 1, spent + {key}, AddInputValue(sum, view, key))
  {
  }

  /** The output-sum loop, in Go's wrapping `int` arithmetic: the sum of
      the values modulo 2^64. */
  method OutputSum(outs: seq<TxOutput>) returns (sum: int)
    ensures sum == Wrap64(SumOutputs(outs))
  {
    sum := 0;
    var k := 0;
    Wrap64Id(0);
    while k < |outs|
      invariant 0 <= k <= |outs|
      invariant sum == Wrap64(SumOutputs(outs[..k]))
    {
      assert outs[..k + 1][..k] == outs[..k];
      Wrap64Add(SumOutputs(outs[..k]), outs[k].value);
      sum := Wrap64(sum + outs[k].value);
      k := k + 1;
    }
    assert outs[..k] == outs;
  }

  // ---- the view as written admits outputs already spent ----

  /** The outputs of `os` recorded under their own keys for `ka`. */
  function OutputsIntoView(view: View, os: seq<OwnedOutput>, ka: KnownAddress): View {
    if os == [] then view
    else
      var o := os[|os| - 1];
      OutputsIntoView(view, os[..|os| - 1], ka)[OutKey(o) := Source(o.tx, ka)]
  }

  /** The view the validator evidently intends: only the outputs each known
      address's walk finds unspent, rather than every output paying it of
      the transactions holding one. */
  function UnspentView(env: Env, chain: seq<Block>, kas: seq<KnownAddress>): View {
    if kas == [] then map[]
    else
      var ka := kas[|kas| - 1];
      OutputsIntoView(UnspentView(env, chain, kas[..|kas| - 1]), UnspentOutputs(env, chain, ka.address, ka.publicKey), ka)
  }

  /** The keys of the outputs the walks of the known addresses find
      unspent. */
  predicate FoundUnspent(env: Env, chain: seq<Block>, kas: seq<KnownAddress>, key: UtxoKey) {
    exists n, o :: 0 <= n < |kas| && o in UnspentOutputs(env, chain, kas[n].address, kas[n].publicKey) && key == OutKey(o)
  }

  lemma {:induction false} OutputsIntoViewKeys(view: View, os: seq<OwnedOutput>, ka: KnownAddress, key: UtxoKey)
    ensures key in OutputsIntoView(view, os, ka) <==> key in view || exists o :: o in os && key == OutKey(o)
  {
    if os != [] {
      OutputsIntoViewKeys(view, os[..|os| - 1], ka, key);
      var o := os[|os| - 1];
      if exists o' :: o' in os && key == OutKey(o') {
        var o' :| o' in os && key == OutKey(o');
        if o' != o {
          assert o' in os[..|os| - 1];
        }
      }
    }
  }

  lemma {:induction false} OutputsIntoViewSound(view: View, os: seq<OwnedOutput>, ka: KnownAddress)
    requires ViewSound(view)
    requires forall o :: o in os ==> 0 <= o.idx < |o.tx.outputs| && BelongsTo(o.tx.outputs[o.idx], ka.address)
    ensures ViewSound(OutputsIntoView(view, os, ka))
  {
    if os != [] {
      OutputsIntoViewSound(view, os[..|os| - 1], ka);
    }
  }

  /** The intended view holds exactly the outputs the walks find unspent,
      and is sound. */
  lemma {:induction false} UnspentViewMeaning(env: Env, chain: seq<Block>, kas: seq<KnownAddress>, key: UtxoKey)
    ensures key in UnspentView(env, chain, kas) <==> FoundUnspent(env, chain, kas, key)
    ensures ViewSound(UnspentView(env, chain, kas))
  {
    if kas != [] {
      var init := kas[..|kas| - 1];
      var ka := kas[|kas| - 1];
      var os := UnspentOutputs(env, chain, ka.address, ka.publicKey);
      UnspentViewMeaning(env, chain, init, key);
      OutputsIntoViewKeys(UnspentView(env, chain, init), os, ka, key);
      UnspentOutputsPayAddress(env, chain, ka.address, ka.publicKey);
      OutputsIntoViewSound(UnspentView(env, chain, init), os, ka);
      if FoundUnspent(env, chain, kas, key) {
        var n, o :| 0 <= n < |kas| && o in UnspentOutputs(env, chain, kas[n].address, kas[n].publicKey) && key == OutKey(o);
        if n < |kas| - 1 {
          assert init[n] == kas[n];
        }
      }
      if FoundUnspent(env, chain, init, key) {
        var n, o :| 0 <= n < |init| && o in UnspentOutputs(env, chain, init[n].address, init[n].publicKey) && key == OutKey(o);
        assert kas[n] == init[n];
      }
    }
  }

  /** A chain in which the genesis transaction pays [7] twice and the next
      block spends the first of those outputs. */
  function TwicePaid(): Transaction {
    Transaction([1], [], [TxOutput(10, [7]), TxOutput(10, [7])])
  }

  function SpendFirst(): TxInput {
    TxInput([1], 0, [])
  }

  function FirstSpender(): Transaction {
    Transaction([4], [SpendFirst()], [TxOutput(10, [8])])
  }

  function SpentSiblingChain(): seq<Block> {
    [Block([2], [3], [], [FirstSpender()], 0, 0, 1), Block([], [2], [], [TwicePaid()], 0, 0, 0)]
  }

  /** A block on top of that chain spending the same output again. */
  function RespendBlock(env: Env): Block {
    var outs := [TxOutput(10, [9])];
    Block([3], [], [], [Transaction(env.txIdOf([SpendFirst()], outs), [SpendFirst()], outs)], 0, 0, 2)
  }

  /** The walk for [7] on that chain finds only the second output of the
      genesis transaction: the tip block marks the first spent. */
  lemma SpentSiblingWalk(env: Env)
    requires env.verify(SpendFirst(), [5]) && !env.isCoinbase(FirstSpender())
    ensures SpentBy(env, FirstSpender(), [5]) == {InputKey(SpendFirst())}
    ensures UnspentOutputs(env, SpentSiblingChain(), [7], [5]) == [OwnedOutput(TwicePaid(), 1)]
  {
    var chain := SpentSiblingChain();
    var t0, t1 := TwicePaid(), FirstSpender();
    var spent := SpentBy(env, t1, [5]);
    assert SpentKeys(env, t1.inputs, [5], 1) == {InputKey(SpendFirst())};
    assert OwnedUnspent(t1, [7], {}, 1) == [];
    assert {} + spent == spent && [] + OwnedUnspent(t1, [7], {}, |t1.outputs|) == [];
    assert Walk(env, chain, [7], [5], 0, 0, {}, []) == Walk(env, chain, [7], [5], 0, 1, spent, []);
    assert Walk(env, chain, [7], [5], 0, 1, spent, []) == Walk(env, chain, [7], [5], 1, 0, spent, []);
    assert OwnedUnspent(t0, [7], spent, 1) == [];
    assert OwnedUnspent(t0, [7], spent, 2) == [OwnedOutput(t0, 1)];
    assert [] + OwnedUnspent(t0, [7], spent, |t0.outputs|) == [OwnedOutput(t0, 1)];
    assert Walk(env, chain, [7], [5], 1, 1, spent + SpentBy(env, t0, [5]), [OwnedOutput(t0, 1)]) == [OwnedOutput(t0, 1)];
  }

  /** The two views of that chain for the known address ([5], [7]). */
  lemma SpentSiblingViews(env: Env)
    requires env.verify(SpendFirst(), [5]) && !env.isCoinbase(FirstSpender())
    ensures var src := Source(TwicePaid(), KnownAddress([5], [7]));
      BuildView(env, SpentSiblingChain(), [KnownAddress([5], [7])]) == map[UtxoKey([1], 0) := src, UtxoKey([1], 1) := src]
    ensures var src := Source(TwicePaid(), KnownAddress([5], [7]));
      UnspentView(env, SpentSiblingChain(), [KnownAddress([5], [7])]) == map[UtxoKey([1], 1) := src]
  {
    SpentSiblingWalk(env);
    SpentSiblingBuildView(env, UnspentOutputs(env, SpentSiblingChain(), [7], [5]));
    SpentSiblingUnspentView(env, UnspentOutputs(env, SpentSiblingChain(), [7], [5]));
  }

  /** The view as written records both outputs of the listed transaction. */
  lemma SpentSiblingBuildView(env: Env, os: seq<OwnedOutput>)
    requires os == UnspentOutputs(env, SpentSiblingChain(), [7], [5]) == [OwnedOutput(TwicePaid(), 1)]
    ensures var src := Source(TwicePaid(), KnownAddress([5], [7]));
      BuildView(env, SpentSiblingChain(), [KnownAddress([5], [7])]) == map[UtxoKey([1], 0) := src, UtxoKey([1], 1) := src]
  {
    var chain := SpentSiblingChain();
    var ka := KnownAddress([5], [7]);
    var t0 := TwicePaid();
    var src := Source(t0, ka);
    assert Txs(os) == [t0];
    assert TxIntoView(map[], t0, ka, 1) == map[UtxoKey([1], 0) := src];
    assert TxIntoView(map[], t0, ka, 2) == map[UtxoKey([1], 0) := src][UtxoKey([1], 1) := src];
    assert TxsIntoView(map[], [t0], ka) == TxIntoView(TxsIntoView(map[], [], ka), t0, ka, 2);
    assert [ka][..0] == [] && [ka][0] == ka;
    assert BuildView(env, chain, []) == map[];
    assert BuildView(env, chain, [ka]) == TxsIntoView(map[], Txs(os), ka);
  }

  /** The intended view records only the unspent output. */
  lemma SpentSiblingUnspentView(env: Env, os: seq<OwnedOutput>)
    requires os == UnspentOutputs(env, SpentSiblingChain(), [7], [5]) == [OwnedOutput(TwicePaid(), 1)]
    ensures var src := Source(TwicePaid(), KnownAddress([5], [7]));
      UnspentView(env, SpentSiblingChain(), [KnownAddress([5], [7])]) == map[UtxoKey([1], 1) := src]
  {
    var chain := SpentSiblingChain();
    var ka := KnownAddress([5], [7]);
    assert [ka][..0] == [] && [ka][0] == ka;
    assert UnspentView(env, chain, []) == map[];
    assert UnspentView(env, chain, [ka]) == OutputsIntoView(map[], os, ka);
  }

  /** As written, the view lists output ([1], 0) though the tip block has
      spent it: the walk lists the genesis transaction for its unspent
      second output, and the view then records both outputs. A block
      spending ([1], 0) a second time is Verified; against the intended view
      it is rejected with SourceTXONotFound. */
  lemma SpentSiblingRespent(env: Env)
    requires env.verify(SpendFirst(), [5])
    requires !env.isCoinbase(FirstSpender()) && !env.isCoinbase(RespendBlock(env).txs[0])
    ensures InputKey(SpendFirst()) in SpentBy(env, FirstSpender(), [5])
    ensures InputKey(SpendFirst()) in BuildView(env, SpentSiblingChain(), [KnownAddress([5], [7])])
    ensures ViewSound(BuildView(env, SpentSiblingChain(), [KnownAddress([5], [7])]))
    ensures ViewSound(UnspentView(env, SpentSiblingChain(), [KnownAddress([5], [7])]))
    ensures ValidateBlockSpec(env, RespendBlock(env), true, Some(BuildView(env, SpentSiblingChain(), [KnownAddress([5], [7])])))
      == Some(Verified)
    ensures ValidateBlockSpec(env, RespendBlock(env), true, Some(UnspentView(env, SpentSiblingChain(), [KnownAddress([5], [7])])))
      == Some(SourceTXONotFound)
  {
    var chain := SpentSiblingChain();
    var ka := KnownAddress([5], [7]);
    SpentSiblingWalk(env);
    SpentSiblingViews(env);
    BuildViewSound(env, chain, [ka]);
    UnspentViewMeaning(env, chain, [ka], InputKey(SpendFirst()));
    RespendPasses(env, BuildView(env, chain, [ka]));
    RespendRejected(env, UnspentView(env, chain, [ka]));
  }

  /** The re-spending block passes against any view listing ([1], 0) with
      value 10 for the key it is signed for. */
  lemma RespendPasses(env: Env, view: View)
    requires ViewSound(view) && InputKey(SpendFirst()) in view
    requires view[InputKey(SpendFirst())].owner.publicKey == [5] && ValueAt(view, InputKey(SpendFirst())) == 10
    requires env.verify(SpendFirst(), [5]) && !env.isCoinbase(RespendBlock(env).txs[0])
    ensures ValidateBlockSpec(env, RespendBlock(env), true, Some(view)) == Some(Verified)
  {
    var b2 := RespendBlock(env);
    NonPositiveDifficultyAcceptsAnyNonce(env, b2);
    RespendBlockTxsPass(env, view);
    NonGenesisVerdict(env, b2, view);
  }

  lemma RespendBlockTxsPass(env: Env, view: View)
    requires ViewSound(view) && InputKey(SpendFirst()) in view
    requires view[InputKey(SpendFirst())].owner.publicKey == [5] && ValueAt(view, InputKey(SpendFirst())) == 10
    requires env.verify(SpendFirst(), [5]) && !env.isCoinbase(RespendBlock(env).txs[0])
    ensures CheckTxs(env, view, RespendBlock(env).txs, 0, 0, {}) == Verified
  {
    var t2 := RespendBlock(env).txs[0];
    RespendInputsPass(env, view, t2.inputs);
    assert SumOutputs(t2.outputs) == 10;
    RespendTxsPass(env, view, RespendBlock(env).txs);
  }

  lemma RespendTxsPass(env: Env, view: View, txs: seq<Transaction>)
    requires ViewSound(view) && |txs| == 1 && !env.isCoinbase(txs[0])
    requires env.txIdOf(txs[0].inputs, txs[0].outputs) == txs[0].txId
    requires CheckInputs(env, view, txs[0].inputs, 0, {}, 0) == InputsPassed({InputKey(SpendFirst())}, 10)
    requires SumOutputs(txs[0].outputs) == 10
    ensures CheckTxs(env, view, txs, 0, 0, {}) == Verified
  {
    assert CheckTxs(env, view, txs, 1, 0, {InputKey(SpendFirst())}) == Verified;
  }

  /** A non-genesis block with a stored parent and a valid proof of work is
      judged by its transactions. */
  lemma NonGenesisVerdict(env: Env, b: Block, view: View)
    requires ViewSound(view) && b.prevHash != [] && PowValid(env, b)
    ensures ValidateBlockSpec(env, b, true, Some(view)) == Some(CheckTxs(env, view, b.txs, 0, 0, {}))
  {
  }

  lemma RespendInputsPass(env: Env, view: View, ins: seq<TxInput>)
    requires ViewSound(view) && InputKey(SpendFirst()) in view
    requires view[InputKey(SpendFirst())].owner.publicKey == [5] && ValueAt(view, InputKey(SpendFirst())) == 10
    requires env.verify(SpendFirst(), [5]) && ins == [SpendFirst()]
    ensures CheckInputs(env, view, ins, 0, {}, 0) == InputsPassed({InputKey(SpendFirst())}, 10)
  {
    var key := InputKey(SpendFirst());
    assert CheckInputs(env, view, ins, 1, {key}, 10) == InputsPassed({key}, 10);
    assert {} + {key} == {key};
  }

  /** and is rejected against any view without it. */
  lemma RespendRejected(env: Env, view: View)
    requires ViewSound(view) && InputKey(SpendFirst()) !in view
    requires !env.isCoinbase(RespendBlock(env).txs[0])
    ensures ValidateBlockSpec(env, RespendBlock(env), true, Some(view)) == Some(SourceTXONotFound)
  {
    NonPositiveDifficultyAcceptsAnyNonce(env, RespendBlock(env));
  }

  // ---- string keys ----

  /** `strconv.Itoa` on a non-negative number: its decimal digits in ASCII. */
  function Digits(n: nat): (r: seq<byte>)
    ensures |r| >= 1 && (n >= 10 ==> |r| >= 2)
    ensures forall i :: 0 <= i < |r| ==> 48 <= r[i] <= 57
  {
    if n < 10 then [48 + n] else Digits(n / 10) + [48 + n % 10]
  }

  /** `strconv.Itoa`. */
  function Itoa(n: int): seq<byte> {
    if n < 0 then [45] + Digits(-n) else Digits(n)
  }

  /** The validator's map key for an output: the transaction id with the
      decimal output index appended. */
  function StringKey(txId: seq<byte>, idx: int): seq<byte> {
    txId + Itoa(idx)
  }

  /** Two different outputs share one string key when the ids differ in
      length: id [1] output 12 and id [1, '1'] output 2 both give
      [1, '1', '2']. */
  lemma StringKeyCollides()
    ensures StringKey([1], 12) == StringKey([1, 49], 2)
    ensures UtxoKey([1], 12) != UtxoKey([1, 49], 2)
  {
    assert Digits(12) == Digits(1) + [50];
  }

  lemma {:induction false} DigitsInjective(a: nat, b: nat)
    requires Digits(a) == Digits(b)
    ensures a == b
  {
    if a >= 10 && b >= 10 {
      var da, db := Digits(a), Digits(b);
      assert da[..|da| - 1] == Digits(a / 10) && db[..|db| - 1] == Digits(b / 10);
      DigitsInjective(a / 10, b / 10);
      assert da[|da| - 1] == 48 + a % 10;
    } else if a < 10 && b < 10 {
      assert Digits(a)[0] == 48 + a;
    }
  }

  /** A minus sign leads exactly the negative numbers. */
  lemma ItoaSign(n: int)
    ensures |Itoa(n)| >= 1 && (Itoa(n)[0] == 45 <==> n < 0)
  {
    if n >= 0 {
      assert 48 <= Digits(n)[0];
    }
  }

  lemma ItoaInjective(a: int, b: int)
    requires Itoa(a) == Itoa(b)
    ensures a == b
  {
    ItoaSign(a);
    ItoaSign(b);
    if a < 0 && b < 0 {
      assert Digits(-a) == Itoa(a)[1..];
      assert Digits(-b) == Itoa(b)[1..];
      DigitsInjective(-a, -b);
    } else if a >= 0 && b >= 0 {
      DigitsInjective(a, b);
    }
  }

  /** Ids of one length, as `SetID` derives them (SHA-256 digests), never
      collide: the string key determines the output. */
  lemma StringKeyInjectiveSameLength(t1: seq<byte>, i1: int, t2: seq<byte>, i2: int)
    requires |t1| == |t2| && StringKey(t1, i1) == StringKey(t2, i2)
    ensures t1 == t2 && i1 == i2
  {
    var k := StringKey(t1, i1);
    assert t1 == k[..|t1|] && t2 == k[..|t2|];
    assert Itoa(i1) == k[|t1|..] && Itoa(i2) == k[|t2|..];
    ItoaInjective(i1, i2);
  }
}
