/** The earlier, single-threaded proof of work of src/pow/pow.go. It seals the
    prototype block record, which carries no transactions, so its preimage has
    no transactions hash. */
module LegacyPow {
  import opened Numeric
  import opened Wrappers
  import opened Utils
  import opened Platform
  import Blocks

  /** The prototype block record the legacy engine works on. */
  datatype BasicBlock = BasicBlock(prevHash: seq<byte>, hash: seq<byte>, data: seq<byte>, nonce: int, difficulty: int)

  datatype ProofOfWork = ProofOfWork(block: BasicBlock, target: nat)

  /** `CreateProofOfWork`: the same target 2^(256 - difficulty) as the
      block engine, and the same panic (None) where the shift is too large
      to allocate. */
  function CreateProofOfWork(b: BasicBlock): (pow: Option<ProofOfWork>)
    ensures pow.Some? ==> pow.value.block == b && Blocks.Target(b.difficulty) == Some(pow.value.target)
    ensures pow.None? <==> Blocks.Target(b.difficulty).None?
    ensures 0 <= b.difficulty <= 256 ==> pow == Some(ProofOfWork(b, Pow2(256 - b.difficulty)))
  {
    match Blocks.Target(b.difficulty)
    case None => None
    case Some(t) => Some(ProofOfWork(b, t))
  }

  /** The preimage PrevHash | Data | be64(nonce) | be64(difficulty). */
  function PowData(b: BasicBlock, nonce: int): seq<byte> {
    b.prevHash + b.data + Int2Hex(nonce) + Int2Hex(b.difficulty)
  }

  predicate Qualifies(env: Env, pow: ProofOfWork, nonce: int) {
    BytesToNat(env.sha256(PowData(pow.block, nonce))) < pow.target
  }

  /** `ValidateNonce`: the digest for the block's own nonce is below target. */
  function ValidateNonce(env: Env, pow: ProofOfWork): (ok: bool)
    ensures ok <==> Qualifies(env, pow, pow.block.nonce)
  {
    BytesToNat(env.sha256(PowData(pow.block, pow.block.nonce))) < pow.target
  }

  /** `GenerateNonce`: tries 0, 1, 2, ... below MaxInt64 and returns the first
      nonce that qualifies with its digest. None stands for the panic when no
      nonce qualifies. */
  method GenerateNonce(env: Env, pow: ProofOfWork) returns (r: Option<(int, seq<byte>)>)
    ensures r.Some? ==>
      && 0 <= r.value.0 < MaxInt64
      && r.value.1 == env.sha256(PowData(pow.block, r.value.0))
      && BytesToNat(r.value.1) < pow.target
      && forall m :: 0 <= m < r.value.0 ==> !Qualifies(env, pow, m)
    ensures r.None? ==> forall m :: 0 <= m < MaxInt64 ==> !Qualifies(env, pow, m)
  {
    var nonce := 0;
    while nonce < MaxInt64
      invariant 0 <= nonce <= MaxInt64
      invariant forall m :: 0 <= m < nonce ==> !Qualifies(env, pow, m)
    {
      var hash := env.sha256(PowData(pow.block, nonce));
      if BytesToNat(hash) < pow.target {
        return Some((nonce, hash));
      }
      forall m | 0 <= m < nonce + 1
        ensures !Qualifies(env, pow, m)
      {
        if m == nonce {
          assert BytesToNat(hash) >= pow.target;
        }
      }
      nonce := nonce + 1;
    }
    return None;
  }

  /** The preimage does not read the hash or nonce fields of the block. */
  lemma PowDataIgnoresSeal(b: BasicBlock, nonce: int, hash: seq<byte>, m: int)
    ensures PowData(b.(nonce := nonce, hash := hash), m) == PowData(b, m)
  {
  }

  /** Storing a nonce found by `GenerateNonce` (and its digest) in the block
      makes `ValidateNonce` accept the block. */
  lemma GeneratedNonceValidates(env: Env, b: BasicBlock, nonce: int, hash: seq<byte>)
    requires CreateProofOfWork(b).Some? && Qualifies(env, CreateProofOfWork(b).value, nonce)
    ensures CreateProofOfWork(b.(nonce := nonce, hash := hash)).Some?
    ensures ValidateNonce(env, CreateProofOfWork(b.(nonce := nonce, hash := hash)).value)
  {
    PowDataIgnoresSeal(b, nonce, hash, nonce);
  }
}
