/** Package `blocks`: the block record and its construction
    (src/blocks/block.go) and the proof-of-work engine that seals it
    (src/blocks/pow.go). */
module Blocks {
  import opened Numeric
  import opened Wrappers
  import opened Utils
  import opened Config
  import opened Transaction
  import opened Platform

  /** A block. `height` is 0 for genesis and the parent's height plus one
      otherwise. */
  datatype Block = Block(
    prevHash: seq<byte>,
    hash: seq<byte>,
    data: seq<byte>,
    txs: seq<Transaction>,
    nonce: int,
    difficulty: int,
    height: int)

  // ---- src/blocks/block.go ----

  /** The ids of the transactions, in block order. */
  function TxIds(txs: seq<Transaction>): (ids: seq<seq<byte>>)
    ensures |ids| == |txs|
    ensures forall i :: 0 <= i < |txs| ==> ids[i] == txs[i].txId
  {
    if txs == [] then [] else TxIds(txs[..|txs| - 1]) + [txs[|txs| - 1].txId]
  }

  /** `bytes.Join(parts, []byte{})`. */
  function Join(parts: seq<seq<byte>>): seq<byte> {
    if parts == [] then [] else Join(parts[..|parts| - 1]) + parts[|parts| - 1]
  }

  /** `GetTransactionsHash`: SHA-256 of the concatenated transaction ids. */
  function GetTransactionsHash(env: Env, b: Block): (h: seq<byte>)
    ensures |h| == 32
  {
    env.sha256(Join(TxIds(b.txs)))
  }

  /** The transactions hash sees only the ordered list of ids: blocks whose
      transactions carry the same ids in the same order agree on it, whatever
      the inputs, outputs or other fields. */
  lemma TransactionsHashDependsOnlyOnIds(env: Env, b1: Block, b2: Block)
    requires |b1.txs| == |b2.txs|
    requires forall i :: 0 <= i < |b1.txs| ==> b1.txs[i].txId == b2.txs[i].txId
    ensures GetTransactionsHash(env, b1) == GetTransactionsHash(env, b2)
  {
    assert TxIds(b1.txs) == TxIds(b2.txs);
  }

  // ---- src/blocks/pow.go ----

  /** The shift amount `uint(256 - difficulty)`: Go's int64 subtraction and
      unsigned conversion together wrap modulo 2^64. */
  function TargetShift(difficulty: int): nat {
    (256 - difficulty) % TwoTo64
  }

  /** The shift at and above which `Lsh` panics: the shifted value needs
      about shift/64 machine words, and Go refuses a slice of more than 2^48
      bytes on 64-bit platforms, so a shift of about 2^51 bits or more cannot
      be allocated. */
  const MaxShift: nat := 0x8_0000_0000_0000

  /** The proof-of-work target `1 << uint(256 - difficulty)`; None is the
      allocation panic of a shift of `MaxShift` bits or more. */
  function Target(difficulty: int): (t: Option<nat>)
    ensures 0 <= difficulty <= 256 ==> t == Some(Pow2(256 - difficulty))
  {
    var shift := TargetShift(difficulty);
    if shift < MaxShift then Some(Pow2(shift)) else None
  }

  /** Over int64 difficulties the target exists exactly for
      256 - MaxShift < difficulty <= 256: any difficulty above 256 wraps to a
      shift near 2^64, and one far below 0 shifts by too much as well. */
  lemma TargetDefined(difficulty: int)
    requires IsInt64(difficulty)
    ensures Target(difficulty).Some? <==> 256 - MaxShift < difficulty <= 256
  {
    if difficulty <= 256 {
      SmallModulus(256 - difficulty, TwoTo64);
    } else {
      Int64Mod(256 - difficulty);
    }
  }

  datatype ProofOfWork = ProofOfWork(block: Block, target: nat)

  /** `CreateProofOfWork`: the block with target 2^(256 - difficulty); None
      when computing the target panics. */
  function CreateProofOfWork(b: Block): (pow: Option<ProofOfWork>)
    ensures pow.Some? ==> pow.value.block == b
    ensures 0 <= b.difficulty <= 256 ==> pow == Some(ProofOfWork(b, Pow2(256 - b.difficulty)))
  {
    match Target(b.difficulty)
    case None => None
    case Some(t) => Some(ProofOfWork(b, t))
  }

  /** The hashed preimage for a candidate nonce:
      PrevHash | Data | transactions hash | be64(nonce) | be64(difficulty). */
  function PowData(env: Env, b: Block, nonce: int): seq<byte> {
    b.prevHash + b.data + GetTransactionsHash(env, b) + Int2Hex(nonce) + Int2Hex(b.difficulty)
  }

  /** SHA-256 of the data read as a 256-bit unsigned integer (`SetBytes`). */
  function HashValue(env: Env, data: seq<byte>): nat {
    BytesToNat(env.sha256(data))
  }

  /** The digest for this nonce is below the target. */
  predicate Qualifies(env: Env, pow: ProofOfWork, nonce: int) {
    HashValue(env, PowData(env, pow.block, nonce)) < pow.target
  }

  /** `ValidateNonce`: the block's own nonce qualifies. */
  function ValidateNonce(env: Env, pow: ProofOfWork): (ok: bool)
    ensures ok <==> BytesToNat(env.sha256(PowData(env, pow.block, pow.block.nonce))) < pow.target
  {
    Qualifies(env, pow, pow.block.nonce)
  }

  /** `nonce` qualifies for block `b`: its target exists and the digest is
      below it. */
  predicate NonceQualifies(env: Env, b: Block, nonce: int) {
    CreateProofOfWork(b).Some? && Qualifies(env, CreateProofOfWork(b).value, nonce)
  }

  /** `ValidateNonce(CreateProofOfWork(b))` as a caller runs it: None is the
      panic of `CreateProofOfWork`, otherwise whether the block's own nonce
      qualifies. */
  function PowCheck(env: Env, b: Block): (r: Option<bool>)
    ensures r.None? <==> Target(b.difficulty).None?
    ensures r == Some(true) <==> NonceQualifies(env, b, b.nonce)
  {
    match CreateProofOfWork(b)
    case None => None
    case Some(pow) => Some(ValidateNonce(env, pow))
  }

  /** Shorthand for re-validating a block's proof of work. */
  predicate PowValid(env: Env, b: Block) {
    PowCheck(env, b) == Some(true)
  }

  /** For a difficulty of 8k bits, a valid block's digest starts with k zero
      bytes (16 = "four hex zeros at the head"). */
  lemma ValidNonceLeadingZeroBytes(env: Env, b: Block, k: nat)
    requires PowValid(env, b)
    requires b.difficulty == 8 * k && k <= 32
    ensures forall i :: 0 <= i < k ==> env.sha256(PowData(env, b, b.nonce))[i] == 0
  {
    TargetOfWholeBytes(k);
    LeadingZeroBytes(env.sha256(PowData(env, b, b.nonce)), k);
  }

  /** The target of a difficulty of 8k bits is 2^(8(32-k)). */
  lemma TargetOfWholeBytes(k: nat)
    requires k <= 32
    ensures Target(8 * k) == Some(Pow2(8 * (32 - k)))
  {
    SmallModulus(256 - 8 * k, TwoTo64);
  }

  /** A 32-byte digest below 2^(8(32-k)) starts with k zero bytes. */
  lemma LeadingZeroBytes(h: seq<byte>, k: nat)
    requires |h| == 32 && k <= 32
    requires BytesToNat(h) < Pow2(8 * (32 - k))
    ensures forall i :: 0 <= i < k ==> h[i] == 0
  {
    forall i | 0 <= i < k
      ensures h[i] == 0
    {
      if h[i] != 0 {
        NonZeroLeadingByteIsLarge(h, k, i);
        assert false;
      }
    }
  }

  /** A non-zero byte among the first k puts the value at 2^(8(32-k)) or
      above. */
  lemma NonZeroLeadingByteIsLarge(h: seq<byte>, k: nat, i: nat)
    requires |h| == 32 && i < k <= 32 && h[i] != 0
    ensures BytesToNat(h) >= Pow2(8 * (32 - k))
  {
    BytesToNatSplit(h, k);
    assert h[..k][i] == h[i];
    NonZeroByteGivesPositive(h[..k], i);
    AtLeastOnce(BytesToNat(h), BytesToNat(h[..k]), Pow2(8 * (|h| - k)), BytesToNat(h[k..]));
  }

  /** hi * p + lo with hi at least 1 is at least p. */
  lemma AtLeastOnce(whole: int, hi: int, p: int, lo: int)
    requires whole == hi * p + lo && hi >= 1 && p >= 0 && lo >= 0
    ensures whole >= p
  {
    MulMonotone(1, hi, p);
  }

  /** The proof of work is no obstacle at a difficulty of 0 or below, as
      long as the target can be built: every nonce qualifies, since every
      digest is below 2^256. */
  lemma NonPositiveDifficultyAcceptsAnyNonce(env: Env, b: Block)
    requires 256 - MaxShift < b.difficulty <= 0
    ensures PowValid(env, b)
  {
    DigestBelowTarget(env.sha256(PowData(env, b, b.nonce)), b.difficulty);
  }

  /** Every 32-byte digest is below the target of a difficulty of 0 or less,
      where that target exists. */
  lemma DigestBelowTarget(h: seq<byte>, difficulty: int)
    requires |h| == 32 && 256 - MaxShift < difficulty <= 0
    ensures Target(difficulty).Some? && BytesToNat(h) < Target(difficulty).value
  {
    BytesToNatBound(h);
    var shift := 256 - difficulty;
    assert 256 <= shift < MaxShift < TwoTo64;
    SmallModulus(shift, TwoTo64);
    Pow2Monotone(8 * |h|, TargetShift(difficulty));
  }

  /** `chunkSize := MaxInt64 / totalWorker`. */
  function ChunkSize(totalWorker: int): int
    requires totalWorker >= 1
  {
    MaxInt64 / totalWorker
  }

  /** Worker `workId` scans nonces [workId*c, (workId+1)*c). */
  function RangeStart(workId: int, totalWorker: int): int
    requires totalWorker >= 1
  {
    workId * ChunkSize(totalWorker)
  }

  function RangeEnd(workId: int, totalWorker: int): int
    requires totalWorker >= 1
  {
    (workId + 1) * ChunkSize(totalWorker)
  }

  /** The workers' ranges lie in [0, MaxInt64), in worker order and pairwise
      disjoint (so no int64 arithmetic on them overflows). */
  lemma WorkerRangesDisjoint(totalWorker: int, w1: int, w2: int)
    requires 0 <= w1 < w2 < totalWorker
    ensures 0 <= RangeStart(w1, totalWorker) <= RangeEnd(w1, totalWorker) <= RangeStart(w2, totalWorker)
    ensures RangeEnd(w2, totalWorker) <= MaxInt64
  {
    var c := ChunkSize(totalWorker);
    assert c >= 0;
    MulMonotone(w1 + 1, w2, c);
    MulMonotone(w2 + 1, totalWorker, c);
    assert totalWorker * c <= MaxInt64;
  }

  lemma MulMonotone(a: int, b: int, c: int)
    requires a <= b && c >= 0
    ensures a * c <= b * c
  {
  }

  /** The number of goroutines in the source's configuration. */
  const CpuNum: int := 4

  /** `max(1, cpuNum - 4)` workers. */
  function RoutineNum(cpuNum: int): (n: int)
    ensures n >= 1
    ensures cpuNum <= 5 ==> n == 1
    ensures cpuNum >= 5 ==> n == cpuNum - 4
  {
    if cpuNum - 4 > 1 then cpuNum - 4 else 1
  }

  /** `r` is the least nonce in [lo, hi) that qualifies, or None when none
      does. */
  predicate LeastQualifying(env: Env, pow: ProofOfWork, lo: int, hi: int, r: Option<int>) {
    && (r.Some? ==> lo <= r.value < hi && Qualifies(env, pow, r.value)
                    && forall m :: lo <= m < r.value ==> !Qualifies(env, pow, m))
    && (r.None? ==> forall m :: lo <= m < hi ==> !Qualifies(env, pow, m))
  }

  /** `FindNonce` of one worker that is never killed: scans its range upwards
      and reports the first qualifying nonce. */
  method FindNonce(env: Env, pow: ProofOfWork, workId: int, totalWorker: int) returns (r: Option<int>)
    requires 0 <= workId < totalWorker
    ensures LeastQualifying(env, pow, RangeStart(workId, totalWorker), RangeEnd(workId, totalWorker), r)
  {
    var lo, hi := RangeStart(workId, totalWorker), RangeEnd(workId, totalWorker);
    var nonce := lo;
    while nonce < hi
      invariant lo <= nonce
      invariant forall m :: lo <= m < nonce ==> !Qualifies(env, pow, m)
      decreases hi - nonce
    {
      var hash := env.sha256(PowData(env, pow.block, nonce));
      if BytesToNat(hash) < pow.target {
        return Some(nonce);
      }
      forall m | lo <= m < nonce + 1
        ensures !Qualifies(env, pow, m)
      {
        if m == nonce {
          assert HashValue(env, PowData(env, pow.block, nonce)) >= pow.target;
        }
      }
      nonce := nonce + 1;
    }
    return None;
  }

  /** `GenerateNonceHash` with the source's fixed `cpuNum = 4`, hence one
      worker scanning [0, MaxInt64): the least qualifying nonce and its digest.
      None when no nonce qualifies (the source then waits forever on the result
      channel). */
  method GenerateNonceHash(env: Env, pow: ProofOfWork) returns (r: Option<(int, seq<byte>)>)
    ensures r.Some? ==> var (nonce, hash) := r.value;
      && LeastQualifying(env, pow, 0, MaxInt64, Some(nonce))
      && hash == env.sha256(PowData(env, pow.block, nonce))
      && BytesToNat(hash) < pow.target
    ensures r.None? ==> LeastQualifying(env, pow, 0, MaxInt64, None)
  {
    var routineNum := RoutineNum(CpuNum);
    var found := FindNonce(env, pow, 0, routineNum);
    if found.None? {
      return None;
    }
    var nonce := found.value;
    var hash := env.sha256(PowData(env, pow.block, nonce));
    r := if BytesToNat(hash) < pow.target then Some((nonce, hash)) else None;
  }

  /** The block `CreateBlock` seals: its arguments, no hash and nonce 0. */
  function Unsealed(data: seq<byte>, txs: seq<Transaction>, prevHash: seq<byte>,
                    difficulty: int, height: int): Block {
    Block(prevHash, [], data, txs, 0, difficulty, height)
  }

  /** Some nonce in [0, MaxInt64) qualifies for `b`. */
  predicate Mineable(env: Env, b: Block) {
    exists m :: 0 <= m < MaxInt64 && NonceQualifies(env, b, m)
  }

  /** `CreateBlock`: copies its arguments into a fresh block and seals it with
      the nonce and digest of the proof-of-work search. None when building
      the target panics or when the search finds nothing: exactly when no
      nonce in [0, MaxInt64) qualifies. */
  method CreateBlock(env: Env, data: seq<byte>, txs: seq<Transaction>, prevHash: seq<byte>,
                     difficulty: int, height: int) returns (r: Option<Block>)
    ensures r.Some? ==>
      && r.value.data == data && r.value.txs == txs && r.value.prevHash == prevHash
      && r.value.difficulty == difficulty && r.value.height == height
      && PowValid(env, r.value)
      && r.value.hash == env.sha256(PowData(env, r.value, r.value.nonce))
      && 0 <= r.value.nonce < MaxInt64
      && forall m :: 0 <= m < r.value.nonce ==> !NonceQualifies(env, r.value, m)
    ensures Target(difficulty).None? ==> r.None?
    ensures r.Some? <==> Mineable(env, Unsealed(data, txs, prevHash, difficulty, height))
  {
    var newBlock := Unsealed(data, txs, prevHash, difficulty, height);
    var pow := CreateProofOfWork(newBlock);
    if pow.None? {
      return None;
    }
    var res := GenerateNonceHash(env, pow.value);
    if res.None? {
      return None;
    }
    var (nonce, hash) := res.value;
    var sealed := newBlock.(nonce := nonce, hash := hash);
    SealKeepsWork(env, newBlock, nonce, hash);
    assert NonceQualifies(env, newBlock, nonce);
    return Some(sealed);
  }

  /** Setting the nonce and hash of a block changes neither its target nor
      which nonces qualify for it: the preimage does not read those fields. */
  lemma SealKeepsWork(env: Env, b: Block, nonce: int, hash: seq<byte>)
    ensures CreateProofOfWork(b.(nonce := nonce, hash := hash)).Some? == CreateProofOfWork(b).Some?
    ensures forall m :: NonceQualifies(env, b.(nonce := nonce, hash := hash), m) == NonceQualifies(env, b, m)
  {
    var sealed := b.(nonce := nonce, hash := hash);
    forall m
      ensures NonceQualifies(env, sealed, m) == NonceQualifies(env, b, m)
    {
      assert PowData(env, sealed, m) == PowData(env, b, m);
    }
  }

  /** The single transaction of the genesis block: one coinbase input and one
      output paying the mining reward to the genesis address, id set by SetID. */
  function GenesisTx(env: Env): Transaction {
    var input := TxInput([], -1, env.coinbaseSig);
    var output := TxOutput(MiningReward, env.genesisData);
    SetId(env, Transaction(seq(32, _ => 0), [input], [output]))
  }

  /** The genesis block before sealing. */
  function GenesisTemplate(env: Env, difficulty: int): Block {
    Unsealed(env.genesisData, [GenesisTx(env)], [], difficulty, 0)
  }

  /** `Genesis`: the fixed genesis block, sealed by proof of work. */
  method Genesis(env: Env, difficulty: int) returns (r: Option<Block>)
    ensures r.Some? ==>
      && r.value.prevHash == [] && r.value.data == env.genesisData && r.value.height == 0
      && r.value.difficulty == difficulty
      && r.value.txs == [GenesisTx(env)]
      && r.value.txs[0].inputs == [TxInput([], -1, env.coinbaseSig)]
      && r.value.txs[0].outputs == [TxOutput(MiningReward, env.genesisData)]
      && PowValid(env, r.value)
      && r.value.hash == env.sha256(PowData(env, r.value, r.value.nonce))
    ensures r.Some? <==> Mineable(env, GenesisTemplate(env, difficulty))
  {
    r := CreateBlock(env, env.genesisData, [GenesisTx(env)], [], difficulty, 0);
  }
}
