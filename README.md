# A verified model of a small proof-of-work ledger

This project models the consensus and bookkeeping core of a small Go
proof-of-work blockchain. It covers:

- the block record and its proof of work (target `2^(256 - difficulty)`,
  nonce search over disjoint worker ranges, the older single-threaded
  search);
- the block validator with its fixed order of ten statuses;
- the chain store, a map from hash to block plus a `lasthash` cell, and the
  two ways of appending to it (local mining and blocks from the network);
- the wallet-side walks over the chain: unspent outputs, balance, spending
  plan, payment construction;
- the incremental UTXO index, kept as a map from address to a list of
  unspent outputs plus a reverse map from the (txid, index) pair of an output to its address (the source keys it by a string, see "Left out");
- the bounded admission cache for incoming blocks;
- the pending-transaction pool and the peer list;
- the utilities: the status enum, the big-endian int64 encoder and the
  command matchers.

SHA-256, transaction ids (`SetID`), signing and verification, `IsCoinbase`,
the genesis data, the coinbase signature and the one-argument coinbase
constructor are uninterpreted. They are fields of the `Platform.Env` value
that every operation takes as a parameter. A digest is 32 bytes, read as a
big-endian natural number. Panics become `None` results, except where the
model states them as preconditions (`DeleteUTXO`, `DumpBlock`).

Module layout, one file each:

| module | file | models |
|---|---|---|
| `Wrappers`, `Numeric`, `Config`, `Platform` | wrappers, numeric, config, platform | Option, big-endian naturals and powers of two, the constants 16 and 100, the uninterpreted primitives |
| `Utils` | utils.dfy | src/utils/utils.go |
| `Transaction` | transaction.dfy | src/transaction/transaction.go and the input/output shape used by the chain |
| `Blocks` | blocks.dfy | src/blocks/block.go, src/blocks/pow.go |
| `LegacyPow` | legacy_pow.dfy | src/pow/pow.go |
| `Utxo` | utxo.dfy | src/blockchain/utxo.go |
| `Ledger` | ledger.dfy | the read-only walks in src/blockchain/blockchain.go |
| `Validation` | validation.dfy | `ValidateBlock` in src/blockchain/blockchain.go |
| `Chain` | chain.dfy | the store, `InitBlockChain`, `AddBlock`, `AddBlockFromNetwork`, the chain iterator |
| `Cache` | blockcache.dfy | src/blockcache/blockcache.go |
| `Pending` | pending.dfy | src/blockchain/pendingTXs.go |
| `Network` | connections.dfy | src/network/connections.go, the `NetworkMetaData` record |

The shown files come from different revisions of the program. The model
uses one `Block` record that has the `Height` field the chain code reads.
It uses the input/output transaction shape that `blockchain.go` and
`utxo.go` use. The older source/record coinbase of `transaction.go` is
modelled on its own, as `Transaction.CoinbaseTx`.

## Model

| member | source | states |
|---|---|---|
| Utils.FromCode | src/utils/utils.go:12-25 | a status exists exactly for the numbers 0..9, and it carries the number asked for |
| Utils.StatusString | src/utils/utils.go:27-51 | the name is "Unknown" exactly for numbers outside 0..9 |
| Utils.StatusNumbering | src/utils/utils.go:12-51 | every status round-trips through its number, and distinct numbers 0..9 get distinct names |
| Utils.Int2Hex | src/utils/utils.go:53-60 | the encoding is exactly 8 bytes |
| Utils.Int2HexRoundTrip | src/utils/utils.go:53-60 | for an int64, the 8 bytes read big-endian give n mod 2^64, read as two's complement give n back, and distinct int64 values encode differently |
| Utils.Match | src/utils/utils.go:85-95 | true iff the input is at least as long as the expected words and starts with them |
| Utils.MatchFrom | src/utils/utils.go:89-94 | the comparison loop from position idx is true iff the remaining expected words agree with the input |
| Utils.ExactCommand | src/utils/utils.go:85-103 | `Match` together with `CheckArgumentCount` for the expected length holds iff the input equals the expected words |
| Transaction.CoinbaseTx | src/transaction/transaction.go:27-34 | one source and one record; the source has an empty id, index -1 and the data as signature; the record pays the mining reward (100) to the address; the id stays empty |
| Blocks.TxIds | src/blocks/block.go:65-68 | one id per transaction, in block order |
| Blocks.TransactionsHashDependsOnlyOnIds | src/blocks/block.go:63-73 | two blocks with the same ordered transaction ids get the same transactions hash |
| Blocks.Target | src/blocks/pow.go:18-24 | for a difficulty in 0..256 the target is 2^(256 - difficulty); it is None, the `Lsh` panic, when the wrapped shift `uint(256 - difficulty)` is too large to allocate |
| Blocks.TargetDefined | src/blocks/pow.go:18-24 | over int64 difficulties the target exists exactly for 256 - 2^51 < difficulty <= 256: a difficulty above 256 wraps to a shift near 2^64, and one far below 0 shifts by too much as well |
| Blocks.CreateProofOfWork | src/blocks/pow.go:18-24 | the wrapper keeps the block; for a difficulty in 0..256 it carries the target 2^(256 - difficulty) |
| Blocks.ValidateNonce | src/blocks/pow.go:104-114 | true iff the SHA-256 digest of prevHash, data, transactions hash, nonce and difficulty, read big-endian, is below the target |
| Blocks.PowCheck | src/blocks/pow.go:104-114 | re-validating a block panics (None) exactly when its target cannot be built, and accepts exactly when its own nonce qualifies |
| Blocks.ValidNonceLeadingZeroBytes | src/blocks/pow.go:104-114 | at difficulty 8k a valid digest starts with k zero bytes |
| Blocks.NonPositiveDifficultyAcceptsAnyNonce | src/blocks/pow.go:18-24 | at a difficulty above 256 - 2^51 and at most 0 every nonce passes; further down the shift panics instead |
| Blocks.WorkerRangesDisjoint | src/blocks/pow.go:30-31 | worker ranges are ordered, pairwise disjoint and inside [0, MaxInt64) |
| Blocks.RoutineNum | src/blocks/pow.go:60-61 | the worker count is max(1, cpuNum - 4), so one worker for the fixed cpuNum 4 |
| Blocks.FindNonce | src/blocks/pow.go:26-54 | the scan reports the least qualifying nonce of its range, or nothing when none qualifies |
| Blocks.GenerateNonceHash | src/blocks/pow.go:56-102 | the nonce is the least qualifying one in [0, MaxInt64) and the hash is its digest, below target; None only when no nonce qualifies, where the source waits forever on its result channel |
| Blocks.CreateBlock | src/blocks/block.go:25-34 | copies data, transactions, previous hash, difficulty and height; the sealed block passes `ValidateNonce`, its hash is the digest of its nonce, and no smaller nonce qualifies; a block is returned exactly when some nonce in [0, MaxInt64) qualifies for the unsealed block, so never when the target panics |
| Blocks.SealKeepsWork | src/blocks/block.go:31-32 | setting the nonce and hash changes neither the target nor any preimage, so the found nonce still validates |
| Blocks.Genesis | src/blocks/block.go:36-45 | empty previous hash, the genesis data, height 0, one transaction with one coinbase input (empty id, -1, coinbase signature) and one output of 100 to the genesis data; the proof of work holds; it is returned exactly when some nonce qualifies for the genesis template |
| LegacyPow.CreateProofOfWork | src/pow/pow.go:17-23 | the same target as the current proof of work, 2^(256 - difficulty) for a difficulty in 0..256, and the same panic (None) where that one panics |
| LegacyPow.ValidateNonce | src/pow/pow.go:44-53 | true iff the digest of prevHash, data, nonce and difficulty (no transactions hash) is below target |
| LegacyPow.GenerateNonce | src/pow/pow.go:25-42 | returns the first qualifying nonce below MaxInt64 with its digest, or None (the panic) when none qualifies |
| LegacyPow.PowDataIgnoresSeal | src/pow/pow.go:30-36 | the preimage does not depend on the stored nonce or hash |
| LegacyPow.GeneratedNonceValidates | src/pow/pow.go:25-53 | a block carrying a nonce that qualifies for its target passes `ValidateNonce` |
| Utxo.AddUtxo | src/blockchain/utxo.go:38-44 | the output is appended to the end of its address's list and its key maps to that address; every other list and key is unchanged |
| Utxo.FindIndex | src/blockchain/utxo.go:48-54 | the first position whose key matches, or -1 exactly when none does |
| Utxo.FirstMatch | src/blockchain/utxo.go:47-54 | the search loop stops at the first entry with the key, or gives -1 when no entry has it (`FindIndex`) |
| Utxo.SwapRemove | src/blockchain/utxo.go:57-59 | moving the last entry into the slot and truncating removes exactly that entry: length minus one, multiset minus it, value sum minus its value |
| Utxo.DeleteUtxo | src/blockchain/utxo.go:46-64 | given a matching entry (the source panics otherwise), the list loses exactly the first match, the key leaves the reverse map, and nothing else changes |
| Utxo.AddUtxoTotal | src/blockchain/utxo.go:38-44 | the indexed total grows by the output's value |
| Utxo.DeleteUtxoTotal | src/blockchain/utxo.go:46-64 | the indexed total drops by the removed entry's value |
| Utxo.InputEdits | src/blockchain/utxo.go:70-78 | one deletion per input, keyed by the output it spends, in order |
| Utxo.OutputEdits | src/blockchain/utxo.go:80-86 | one addition per output k, as (txid, k, value) under its address, in order |
| Utxo.Step | src/blockchain/utxo.go:70-86 | an addition always applies; a deletion applies iff the owner found through the reverse map (empty when absent) holds the key |
| Utxo.DumpIndexesOutputs | src/blockchain/utxo.go:80-86 | after a block is applied, every output not spent later in the block is indexed as (txid, idx, value) under its address |
| Utxo.DumpRemovesInputs | src/blockchain/utxo.go:70-78 | after a block is applied, the key of every input whose output is not re-created later in the block is gone from the reverse map `utxo2Addr`; an earlier duplicate entry for it may stay in the address's list |
| Utxo.DumpConservesValue | src/blockchain/utxo.go:66-88 | the removed entries are exactly the block's inputs in order, and the new total is the old total minus their values plus the block's output values |
| Utxo.SpendingPlanIsShortestCover | src/blockchain/utxo.go:104-121 | the plan is the shortest prefix whose value reaches the amount, with its total; when no prefix reaches it the plan is empty with total -1 (0 for an empty list and an amount of at most 0) |
| Utxo.GroupByTxIsFilter | src/blockchain/utxo.go:95-99 | the grouping lists a transaction id iff the plan draws from it, with its output indices in plan order |
| Utxo.CoinbaseInputPanicsOnFreshSet | src/blockchain/utxo.go:70-78 | applying a block that starts with a transaction with an input (the genesis coinbase) to an empty index fails |
| Utxo.CoinbaseBlockApplies | src/blockchain/utxo.go:66-88 | with coinbase inputs skipped, a coinbase block always applies, indexes each output and grows the total by its output value |
| Utxo.UtxoSet.constructor | src/blockchain/utxo.go:29-36 | both maps start empty |
| Utxo.UtxoSet.AddUTXO | src/blockchain/utxo.go:38-44 | the new index is `AddUtxo` of the old one |
| Utxo.UtxoSet.DeleteUTXO | src/blockchain/utxo.go:46-64 | with a matching entry required, the new index is `DeleteUtxo` of the old one |
| Utxo.UtxoSet.StoreDeletion | src/blockchain/utxo.go:57-63 | the writes that end `DeleteUTXO`: the address's list becomes the shortened list and the reverse map loses the key; nothing else changes |
| Utxo.UtxoSet.DumpBlock | src/blockchain/utxo.go:66-88 | with every input's output present when it is reached, the new index is the block applied edit by edit |
| Utxo.UtxoSet.RemoveInputs | src/blockchain/utxo.go:70-78 | the input loop performs exactly the input deletions, in order |
| Utxo.UtxoSet.DeleteInput | src/blockchain/utxo.go:71-77 | one pass of the input loop performs exactly the deletion for input j, the owner found through the reverse map: the remaining edits applied to the new index give what all of them give applied to the old one |
| Utxo.UtxoSet.AddOutputs | src/blockchain/utxo.go:80-86 | the output loop performs exactly the output additions, in order |
| Utxo.UtxoSet.CollectSpendingPlan | src/blockchain/utxo.go:104-121 | the loop returns the shortest covering prefix of the address's list |
| Utxo.UtxoSet.GenerateSpendingPlan | src/blockchain/utxo.go:90-102 | the grouping is non-empty only when the plan total equals the amount exactly; any overshoot or shortfall gives an empty map |
| Ledger.FindUnspentTransactions | src/blockchain/blockchain.go:267-314 | one transaction per unspent output found by the tip-to-genesis walk |
| Ledger.UnspentOutputsExact | src/blockchain/blockchain.go:267-314 | an output is reported iff it is an output of a transaction in a block the walk reaches (down to the first block with an empty previous hash), it pays the address, and no input verifying under the key in a block nearer the tip or in an earlier transaction of its block spends it |
| Ledger.CollectOwned | src/blockchain/blockchain.go:285-298 | the outputs of a transaction that pay the address and are not yet marked spent, in index order |
| Ledger.MarkSpent | src/blockchain/blockchain.go:299-307 | a non-coinbase transaction marks every input the key can unlock as spent |
| Ledger.UnspentOutputsPayAddress | src/blockchain/blockchain.go:267-314 | every reported output exists and pays the address |
| Ledger.UnspentOutputsFromChain | src/blockchain/blockchain.go:267-314 | every reported transaction is in a block of the chain |
| Ledger.WalkAvoidsSpent | src/blockchain/blockchain.go:285-307 | the walk only appends, and no appended output was marked spent by a later block or an earlier transaction of its block |
| Ledger.GetBalance | src/blockchain/blockchain.go:397-409 | the balance sums, over every listed transaction, all of its outputs that pay the address |
| Ledger.OwnedOutputsValue | src/blockchain/blockchain.go:402-406 | the inner loop adds up exactly the values of the transaction's outputs that pay the address (`OwnedValue`) |
| Ledger.GetBalanceCorrectOnSinglePayments | src/blockchain/blockchain.go:397-409 | when no transaction pays the address twice, the balance is the value of the unspent outputs |
| Ledger.GetBalanceDoubleCounts | src/blockchain/blockchain.go:397-409 | a transaction paying the address twice, both outputs unspent, gives 40 where the unspent value is 20 |
| Ledger.CoverLength | src/blockchain/blockchain.go:338-351 | the length of the shortest covering prefix, or the whole list when none covers |
| Ledger.CoverLengthIsLeast | src/blockchain/blockchain.go:338-351 | any covering length with no shorter covering prefix is that length |
| Ledger.PlanStops | src/blockchain/blockchain.go:338-351 | once the accumulated value reaches the amount the plan is exactly what was taken so far |
| Ledger.PlanExhausted | src/blockchain/blockchain.go:338-351 | when no prefix covers the amount, the plan takes the whole owned-output list with its full total; that list holds every output paying the address of each listed transaction, spent siblings included, once per listing |
| Ledger.GenerateSpendingPlan | src/blockchain/blockchain.go:330-352 | the walk returns the total and grouping of the shortest covering prefix of the owned-output list: every output paying the address of each transaction `FindUnspentTransactions` lists, spent siblings included, repeated once per listing |
| Ledger.PlanOutputs | src/blockchain/blockchain.go:341-349 | one transaction's outputs extend the plan, stopping at the first that reaches the amount |
| Ledger.TotalAmount | src/blockchain/blockchain.go:360-363 | the sum of the amounts |
| Ledger.ReceiverOutputs | src/blockchain/blockchain.go:383-386 | one output per receiver with its amount, summing to the total amount |
| Ledger.PayOutputs | src/blockchain/blockchain.go:382-389 | receivers' outputs, plus a change output to the sender iff the inputs exceed the amounts; the outputs sum to the input total |
| Ledger.SignInputs | src/blockchain/blockchain.go:369-380 | fails iff some transaction contributes more than one output; otherwise one input per planned transaction, each signed over its unsigned form |
| Ledger.GenerateTransaction | src/blockchain/blockchain.go:354-395 | mismatched receivers and amounts, missing funds and several outputs from one transaction each give their own error (the panics); otherwise the transaction spends the plan and pays out as `PayOutputs` |
| Validation.BuildViewSound | src/blockchain/blockchain.go:201-214 | every view entry names an existing output of its transaction that pays the known address it is filed under |
| Validation.CheckInputsOutcome | src/blockchain/blockchain.go:233-254 | an input failure is SourceTXONotFound, WrongTXInputSignature or DoubleSpending; a pass only grows the spent set |
| Validation.CheckInputsPass | src/blockchain/blockchain.go:235-251 | the inputs pass iff each is in the view, verifies against its owner's key, and is distinct from the others and from the outputs already spent in the block |
| Validation.CheckInputsSound | src/blockchain/blockchain.go:235-251 | passing inputs are authorised, distinct and unspent |
| Validation.CheckInputsComplete | src/blockchain/blockchain.go:235-251 | authorised, distinct, unspent inputs pass |
| Validation.CheckInputsResult | src/blockchain/blockchain.go:246-253 | after a pass the spent set gains exactly the inputs' keys and the input sum is their values' sum |
| Validation.UnspentFromDisjoint | src/blockchain/blockchain.go:217-251 | inputs are unspent one by one iff their keys are disjoint from the spent set |
| Validation.GenesisRule | src/blockchain/blockchain.go:152-177 | a block with an empty previous hash is Verified iff the proof of work holds, data and difficulty are the genesis ones, it holds one coinbase transaction and that pays the genesis data; it panics only when the target cannot be built or on a coinbase without outputs; otherwise WrongGenesis |
| Validation.MinedGenesisVerified | src/blockchain/blockchain.go:152-177 | a sealed block of the genesis shape is Verified |
| Validation.NonGenesisCheckOrder | src/blockchain/blockchain.go:180-200 | a missing previous block gives PrevBlockNotFound before the proof of work is looked at; once the parent is found, a target that cannot be built panics and a failing proof of work gives HashMismatch |
| Validation.OversizedDifficultyPanics | src/blocks/pow.go:18-24 | a genesis block, or one whose parent is stored, with an int64 difficulty above 256 makes the validator panic |
| Validation.GuardedValidatorTotal | src/blockchain/blockchain.go:149-200 | with the difficulty bounded to 0..256 before the target is built, an out-of-range difficulty is rejected, never Verified and never a panic; a panic is left only for a missing view or a genesis coinbase without outputs; in range the verdict is the one as written |
| Validation.TxCheckMeaning | src/blockchain/blockchain.go:227-262 | a non-coinbase transaction passes iff its id recomputes, its inputs are authorised, distinct and unspent, and its output sum equals its input sum modulo 2^64, as Go `int` values; the spent set then grows by its keys |
| Validation.CheckTxsSound | src/blockchain/blockchain.go:216-264 | a Verified block has at most one coinbase and every other transaction valid |
| Validation.CheckTxsComplete | src/blockchain/blockchain.go:216-264 | at most one coinbase and every other transaction valid make the block Verified |
| Validation.TxsVerifiedIffValid | src/blockchain/blockchain.go:216-264 | the transaction loop from the start ends Verified exactly when the block's transactions are valid, in both directions |
| Validation.VerifiedMeansValidTxs | src/blockchain/blockchain.go:149-265 | a linked block with valid proof of work is Verified iff its transactions are valid together: one coinbase at most, ids recompute, inputs authorised and never spent twice in the block, sums balance modulo 2^64 |
| Validation.TxBalanceExact | src/blockchain/blockchain.go:253-260 | while both sums fit in int64, the wrapped comparison is exact equality |
| Validation.OverflowingOutputsVerified | src/blockchain/blockchain.go:255-261 | outputs of MaxInt64, MaxInt64 and 12 add up to 2^64 + 10, which balances an input sum of 10, so the block holding that transaction is Verified |
| Validation.CollectView | src/blockchain/blockchain.go:201-214 | the loop builds the view over every known address |
| Validation.AddTxs | src/blockchain/blockchain.go:206-213 | the loop files the address's outputs of every listed transaction |
| Validation.AddTx | src/blockchain/blockchain.go:207-212 | the loop files every output of one transaction that pays the address |
| Validation.CheckTransactions | src/blockchain/blockchain.go:215-264 | the loop returns the status of the transaction rules |
| Validation.CheckTxInputs | src/blockchain/blockchain.go:233-254 | the loop returns the input outcome, with the sum accumulated in wrapping int64 arithmetic (`Wrapped`) |
| Validation.Wrapped | src/blockchain/blockchain.go:246-253 | a failure is kept; a pass keeps its spent set, and its sum becomes the int64 the exact sum wraps to |
| Validation.WrappedInputStep | src/blockchain/blockchain.go:246-253 | a passing input moves the check on to the next input with its key spent, and adding its value to the wrapped sum wraps the exact sum |
| Validation.OutputSum | src/blockchain/blockchain.go:255-259 | the loop sums the output values modulo 2^64, as an int64 |
| Numeric.Wrap64Id | src/blockchain/blockchain.go:253 | wrapping leaves an int64 unchanged |
| Numeric.Wrap64Mod | src/blockchain/blockchain.go:253 | the wrapped value is congruent to the exact one modulo 2^64 |
| Numeric.Wrap64Congruent | src/blockchain/blockchain.go:253 | numbers that differ by a multiple of 2^64 wrap to the same int64 |
| Numeric.Wrap64Add | src/blockchain/blockchain.go:258 | wrapping after each addition gives the wrap of the exact sum |
| Validation.UnspentViewMeaning | src/blockchain/blockchain.go:201-214 | the intended view holds a key iff the walk reports that output unspent for some known address |
| Validation.SpentSiblingWalk | src/blockchain/blockchain.go:267-314 | on the two-block chain, the walk lists the paying transaction once, for its unspent output |
| Validation.SpentSiblingViews | src/blockchain/blockchain.go:201-214 | on that chain the view as written holds both outputs, the intended view only the unspent one |
| Validation.SpentSiblingRespent | src/blockchain/blockchain.go:201-254 | a block re-spending the spent output is Verified as written and SourceTXONotFound with the intended view |
| Validation.Digits | src/blockchain/utxo.go:42 | decimal digits: at least one, two from 10 on, each an ASCII digit |
| Validation.StringKeyCollides | src/blockchain/blockchain.go:209 | id [1] with output 12 and id [1,'1'] with output 2 give the same string key |
| Validation.ItoaInjective | src/blockchain/blockchain.go:209 | distinct indices print differently |
| Validation.StringKeyInjectiveSameLength | src/blockchain/blockchain.go:237 | for ids of equal length the string key determines id and index |
| Chain.ChainFrom | src/blockchain/iterator.go:35-82 | a finished walk starts at the block stored under the hash and follows previous-hash links through the store |
| Chain.ChainFromExtend | src/blockchain/blockchain.go:139-141 | storing a block under a fresh key leaves every finished walk unchanged |
| Chain.CommitExtends | src/blockchain/blockchain.go:123-143 | a block linking the tip, stored under a fresh hash, extends the chain by exactly that block |
| Chain.SelfLinkNeverEnds | src/blockchain/iterator.go:35-60 | a block stored under its own previous hash makes the walk never end |
| Chain.NetworkBlockOverwrites | src/blockchain/blockchain.go:109-147 | a difficulty-0 block claiming the genesis hash is Verified, replaces genesis, and the walk never ends |
| Chain.BlockChain.constructor | src/blockchain/blockchain.go:18-30 | the fields are the given ones |
| Chain.BlockChain.Walk | src/blockchain/iterator.go:15-82 | a finished walk starts at the tip and follows the links |
| Chain.BlockChain.CurrentView | src/blockchain/blockchain.go:201-214 | the view of the current chain is sound |
| Chain.BlockChain.LoadView | src/blockchain/blockchain.go:201-214 | the view the checks run against is the current view: empty without known addresses, otherwise the view collected over the walked chain, None when the walk panics |
| Chain.BlockChain.ReadChain | src/blockchain/iterator.go:15-82 | the iterator loop returns the walk |
| Chain.BlockChain.ValidateBlock | src/blockchain/blockchain.go:149-265 | the verdict is the rule order applied to the block, whether its previous block is stored, and the current view |
| Chain.ValidateGenesis | src/blockchain/blockchain.go:152-177 | the genesis checks in source order give the genesis verdict (`GenesisRule` states its meaning) |
| Chain.BlockChain.Commit | src/blockchain/blockchain.go:95-99 | the block is stored under its hash and lasthash names it; no other field changes |
| Chain.BlockChain.CacheTip | src/blockchain/blockchain.go:103-105 | the cached hash and height become the tip's; no other field changes |
| Chain.BlockChain.AddBlock | src/blockchain/blockchain.go:70-107 | without a stored tip nothing happens; on one, a block is mined exactly when some nonce qualifies for `NextTemplate`; a panic (None) leaves the store and lasthash alone; otherwise the verdict is the validator's on the mined block, the block is stored and lasthash moved iff it is Verified, and the result is the tip, whose hash and height are cached |
| Chain.BlockChain.NextTemplate | src/blockchain/blockchain.go:71-86 | the unsealed block exists iff there is a tip; its previous hash is lasthash and its height the tip's plus one |
| Chain.BlockChain.MineOnTip | src/blockchain/blockchain.go:71-89 | changes nothing; the mined block exists exactly when some nonce qualifies for `NextTemplate`, carries its fields with a valid proof of work and the digest as hash, and the verdict is the validator's on it against the current store and view |
| Chain.BlockChain.Record | src/blockchain/blockchain.go:90-106 | a Verified block is stored under its hash and named by lasthash; any other verdict changes neither; the result is the tip, and the cached hash and height follow it |
| Chain.BlockChain.AddBlockFromNetwork | src/blockchain/blockchain.go:109-147 | false and nothing written unless the block links the stored lasthash and is Verified; on success lasthash, the tip hash and the height become the block's |
| Chain.InitBlockChain | src/blockchain/blockchain.go:32-68 | an existing lasthash is adopted iff it is stored; without one, a chain is created exactly when some nonce qualifies for the genesis template, and the mined genesis is then the whole chain |
| Cache.Enqueue | src/blockcache/blockcache.go:57-60 | the block goes to the back and the front is dropped first when the queue is full; it fails only on an empty queue with a size of 0 or below |
| Cache.EnqueueBounded | src/blockcache/blockcache.go:57-60 | with a size of 1 or more the queue never exceeds the size |
| Cache.DistinctRejectedAsWritten | src/blockcache/blockcache.go:49-55 | a block whose hash differs from a queued one is rejected |
| Cache.DuplicateAdmittedAsWritten | src/blockcache/blockcache.go:49-60 | a block already queued is admitted again and then held twice |
| Cache.AdmitKeepsHashesDistinct | src/blockcache/blockcache.go:49-60 | with the duplicate check the comment describes, queued hashes stay distinct |
| Cache.AllHashesAre | src/blockcache/blockcache.go:50-55 | the scan passes exactly when every queued block has the given hash, the condition the loop as written checks |
| Cache.BlockCache.constructor | src/blockcache/blockcache.go:17-21 | an empty queue with the given size and cursor |
| Cache.BlockCache.SetLastHash | src/blockcache/blockcache.go:23-31 | a new cursor empties the queue; the same cursor changes nothing |
| Cache.BlockCache.AddBlock | src/blockcache/blockcache.go:33-65 | a panic (None) with the queue unchanged when a block extending the cursor has a target that cannot be built; false with the queue unchanged when the block does not extend the cursor, fails proof of work, or meets the as-written duplicate check; otherwise true and the queue is `Enqueue` of the old one (None when that fails) |
| Cache.BlockCache.PopBlock | src/blockcache/blockcache.go:67-75 | nothing on an empty queue; otherwise the front block, removed |
| Pending.Lookup | src/blockchain/pendingTXs.go:36-41 | a transaction is found iff its key is present, and it is the stored one |
| Pending.LookupAfterAdd | src/blockchain/pendingTXs.go:20-24 | after adding, the key finds the new transaction (overwriting) and other keys find what they found before |
| Pending.LookupAfterDelete | src/blockchain/pendingTXs.go:43-47 | after deleting, the key finds nothing, other keys are unchanged, and deleting an absent key changes nothing |
| Pending.PendingTxs.constructor | src/blockchain/pendingTXs.go:14-18 | the pool starts empty |
| Pending.PendingTxs.AddTransaction | src/blockchain/pendingTXs.go:20-24 | the key maps to the transaction and every other key is unchanged |
| Pending.PendingTxs.GetTx | src/blockchain/pendingTXs.go:36-41 | found iff the key is present, with the stored transaction |
| Pending.PendingTxs.DeleteTx | src/blockchain/pendingTXs.go:43-47 | only the key is removed; an absent key changes nothing |
| Network.OfferKeepsDistinct | src/network/connections.go:19-29 | adding a peer never creates two entries with the same address and port |
| Network.OfferHasPeer | src/network/connections.go:19-29 | after adding, an endpoint is present iff it was before or it is the added peer's |
| Network.OfferAllDistinct | src/network/connections.go:19-29 | a pool built only by adding peers has distinct endpoints, and holds an endpoint iff some added peer had it |
| Network.ConnectionPool.constructor | src/network/connections.go:14-17 | the pool starts empty |
| Network.ConnectionPool.AddPeer | src/network/connections.go:19-29 | true iff no entry had the peer's address and port, and then the peer is appended; otherwise the pool is unchanged |
| Network.ConnectionPool.ExistsPeer | src/network/connections.go:31-40 | true iff some entry matches on address and port |
| Network.ConnectionPool.GetAlivePeers | src/network/connections.go:42-51 | exactly `count` entries (none for a count of 0 or below), each the pool entry the corresponding draw selects, so each is a member; fails on an empty pool with a positive count |

## Left out

- Concurrency: the goroutines, kill channel, workload tally and hash-rate print of `GenerateNonceHash`, and the mutexes of the cache, pending pool and peer pool. Every operation is modelled as sequential.
- Storage: badger transactions, gob `Serialize`/`Deserialize`, `SaveFile`/`LoadFile` and the on-disk path. The store is a map from hash to block plus an optional `lasthash` cell, and the string key "lasthash" sharing the block keyspace is not modelled.
- Foreign libraries: real SHA-256, ECDSA signing and verification (including `TxInput.Sign`, whose source is not part of this model; `Ledger.SignInputs` uses `Env.sign` over the unsigned input), Base58, and address derivation. They are uninterpreted fields of `Platform.Env`. The `big.Int` target is a natural number, shifted and compared exactly.
- Blocks.Target: the `Lsh` panic is placed at a shift of 2^51 bits, the allocation limit of a 64-bit platform (2^48 bytes). A smaller shift that still exhausts the memory of a real machine is not modelled as a panic.
- `FindUTXO`, `Log2Terminal`, `Exit`, `ListPendingTransactions`, `ShowPool`, `PathExists`, `Handle` and `Assert`: helpers that print, exit or only forward to the file system. They are not modelled.
- src/network/node.go, src/network/message.go (apart from `NetworkMetaData`), src/cli/cli.go, main.go, src/test/test_network.go, src/wallet/* and src/basic/* are not part of this model.
- Map iteration order: the known-address map, the spent-output map and the candidate map of `GenerateTransaction` are iterated in a fixed sequence order. Go randomises this order. The spent-output map is modelled as a set of keys.
- Network.ConnectionPool.GetAlivePeers: the random choices are the `draws` parameter (entry k is `pool[draws[k] % |pool|]`). Randomness itself is not modelled.
- Chain.BlockChain.AddBlock: the mined block's height is taken to be the stored tip's height plus one. This is an assumption: blockchain.go:86 passes `prevHeight` to a five-argument `CreateBlock` that is not part of this model, and the four-argument `CreateBlock` of block.go sets no height. The one-argument coinbase constructor the call site uses is `Env.coinbaseTx`. A mined block whose hash collides with a stored one is not excluded.
- Chain.ChainFrom: the walk is given a fuel of `|store|` links; a walk needing more is reported as never ending. That such a walk revisits a block (the pigeonhole argument) is not proved.
- Ledger.TotalAmount: the amounts are summed as unbounded integers; Go's `int` total (blockchain.go:360-363) wraps modulo 2^64, which the model does not follow.
- Ledger.GenerateSpendingPlan: the `accumulated` total (blockchain.go:343), and with it `Ledger.PlanOutputs`, `Ledger.PlanStops` and `Ledger.PlanExhausted`, is an unbounded sum; Go's wrap modulo 2^64 is not modelled.
- Ledger.GetBalance: the balance (blockchain.go:404) is an unbounded sum; Go's wrap modulo 2^64 is not modelled.
- Ledger.OwnedOutputsValue: the inner sum of `GetBalance` is unbounded as well, for the same reason.
- Utxo.UtxoSet.CollectSpendingPlan: the plan total (utxo.go:110), and with it `Utxo.SpendingPlanIsShortestCover`, is an unbounded sum; Go's wrap modulo 2^64 is not modelled.
- Utxo.AddUtxo: the reverse map `utxo2Addr` is keyed by the (txid, index) pair. utxo.go:42 builds the string key `string(txid) + Itoa(idx)`, which collides for ids of different lengths (as `Validation.StringKeyCollides` shows for the same key at blockchain.go:209). Adding ([1], 12) for A and then ([1,'1'], 2) for B maps both keys to B in the source, but not in the model. `Validation.StringKeyInjectiveSameLength` shows that ids of equal length never collide.
- Utxo.DeleteUtxo: deletes the pair key from the reverse map where utxo.go:62 deletes the colliding string key, so a colliding entry of another output is not removed as it would be in the source.
- Utxo.Step: finds the owner through the pair key where utxo.go:71-72 uses the colliding string key. After a collision the source may search the wrong address's list and panic on index -1 (utxo.go:58), where the model finds the right owner.
- Validation.ValidateBlockSpec: the source checks neither the difficulty nor the height of a non-genesis block, and neither does the model.
- Utxo.UtxoSet.DeleteUTXO: the panic on a missing entry is a precondition (a matching entry must exist), not an error result.
- Utxo.UtxoSet.DumpBlock: the panic on an input whose output is not indexed is a precondition (every deletion must apply), not an error result.
- Pending.PendingTxs.GetTx: a nil transaction stored in the map is not distinguished from an absent key, because the model has no nil transaction.

## Findings

| source | as written | input that shows it | evidently intended | confidence | as-written member | corrected member |
|---|---|---|---|---|---|---|
| src/blockchain/blockchain.go:209 | outputs are keyed by the string `string(txid) + Itoa(idx)` | id [1] with output 12 and id [1,'1'] with output 2 both give [1,'1','2'] | key outputs by the (txid, index) pair | medium, not executed | Validation.StringKeyCollides | Validation.StringKeyInjectiveSameLength |
| src/blocks/pow.go:18-24 | the target is `1 << uint(256 - difficulty)` and nothing bounds the difficulty of a block received from a peer | a block with difficulty 257 whose parent is stored: the shift wraps to 2^64 - 1, `Lsh` panics and the validator crashes | reject a difficulty outside 0..256 before building the target | high, not executed | Validation.OversizedDifficultyPanics | Validation.GuardedValidatorTotal |
| src/blockcache/blockcache.go:49-55 | the loop rejects a block when a queued block's hash differs from it | a queue holding block A rejects every valid block with another hash, and admits A a second time | reject a block only when its hash is already queued | high, not executed | Cache.DuplicateAdmittedAsWritten | Cache.AdmitKeepsHashesDistinct |
| src/blockchain/utxo.go:70-78 | `DumpBlock` deletes the output behind every input, coinbase inputs included | the genesis block applied to an empty index: its input (empty id, -1) is not indexed, so `DeleteUTXO` indexes slot -1 | skip the inputs of coinbase transactions | medium, not executed | Utxo.CoinbaseInputPanicsOnFreshSet | Utxo.CoinbaseBlockApplies |
| src/blockchain/blockchain.go:397-409 | the balance sums all outputs paying the address of each listed transaction, and a transaction is listed once per unspent output | one transaction paying address [7] 10 twice, both unspent: balance 40 | 20, the value of the unspent outputs | high, not executed | Ledger.GetBalanceDoubleCounts | Ledger.GetBalanceCorrectOnSinglePayments |
| src/blockchain/blockchain.go:204-213 | the view records every output paying a known address of each listed transaction, spent or not | a transaction paying [7] twice whose first output is spent in the next block: a third block spending that output again is Verified | record only the outputs the walk found unspent | high, not executed | Validation.SpentSiblingRespent | Validation.UnspentViewMeaning |
| src/blockchain/blockchain.go:123-143 | a network block is stored under the hash it claims, which is neither recomputed nor checked to be new | a difficulty-0 block whose hash and previous hash are the genesis hash is Verified, replaces genesis, and the chain walk never ends | store a block only under its own digest and only under a fresh hash | medium, not executed | Chain.NetworkBlockOverwrites | Chain.CommitExtends |
