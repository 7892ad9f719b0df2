/** src/blockcache/blockcache.go: a bounded FIFO of received blocks that
    extend an expected previous hash (the cursor). */
module Cache {
  import opened Numeric
  import opened Wrappers
  import opened Platform
  import opened Blocks

  /** The admission test as written: the block extends the cursor, its proof
      of work holds, and every queued block has the SAME hash as it (the
      loop rejects on the first queued hash that differs). */
  predicate AdmitsAsWritten(env: Env, que: seq<Block>, cursor: seq<byte>, b: Block) {
    && b.prevHash == cursor
    && PowValid(env, b)
    && forall i :: 0 <= i < |que| ==> que[i].hash == b.hash
  }

  /** The admission test the comment describes: no queued block has the
      block's hash. */
  predicate Admits(env: Env, que: seq<Block>, cursor: seq<byte>, b: Block) {
    && b.prevHash == cursor
    && PowValid(env, b)
    && forall i :: 0 <= i < |que| ==> que[i].hash != b.hash
  }

  /** Appending to the queue, dropping the front first when it holds `size`
      blocks or more. None is the panic of dropping from an empty queue
      (size 0 or below). */
  function Enqueue(que: seq<Block>, size: int, b: Block): (r: Option<seq<Block>>)
    ensures r.None? <==> |que| == 0 && size <= 0
    ensures r.Some? ==> |r.value| >= 1 && r.value[|r.value| - 1] == b
    ensures r.Some? && |que| < size ==> r.value[..|r.value| - 1] == que
    ensures r.Some? && |que| >= size ==> r.value[..|r.value| - 1] == que[1..]
  {
    if |que| >= size then
      if |que| == 0 then None else Some(que[1..] + [b])
    else Some(que + [b])
  }

  /** With a positive size, the queue never grows beyond it. */
  lemma EnqueueBounded(que: seq<Block>, size: int, b: Block)
    requires 1 <= size && |que| <= size
    ensures Enqueue(que, size, b).Some? && |Enqueue(que, size, b).value| <= size
  {
  }

  predicate DistinctHashes(que: seq<Block>) {
    forall i, j :: 0 <= i < j < |que| ==> que[i].hash != que[j].hash
  }

  /** As written, a block whose hash differs from a queued block's is
      rejected, however valid. */
  lemma DistinctRejectedAsWritten(env: Env, que: seq<Block>, cursor: seq<byte>, b: Block, k: nat)
    requires k < |que| && que[k].hash != b.hash
    ensures !AdmitsAsWritten(env, que, cursor, b)
  {
  }

  /** As written, a block already queued is admitted a second time, and
      the queue then holds it twice. */
  lemma DuplicateAdmittedAsWritten(env: Env, cursor: seq<byte>, b: Block)
    requires b.prevHash == cursor && PowValid(env, b)
    ensures AdmitsAsWritten(env, [b], cursor, b)
    ensures Enqueue([b], 2, b) == Some([b, b]) && !DistinctHashes([b, b])
  {
    assert [b][0] == b;
    DuplicateQueued(b);
  }

  lemma DuplicateQueued(b: Block)
    ensures Enqueue([b], 2, b) == Some([b, b]) && !DistinctHashes([b, b])
  {
    assert [b] + [b] == [b, b];
    assert [b, b][0].hash == [b, b][1].hash;
  }

  /** With the intended test, the queue never holds two blocks with one
      hash. */
  lemma AdmitKeepsHashesDistinct(env: Env, que: seq<Block>, size: int, cursor: seq<byte>, b: Block)
    requires DistinctHashes(que) && Admits(env, que, cursor, b) && Enqueue(que, size, b).Some?
    ensures DistinctHashes(Enqueue(que, size, b).value)
  {
    var r := Enqueue(que, size, b).value;
    var pre := r[..|r| - 1];
    forall i, j | 0 <= i < j < |r|
      ensures r[i].hash != r[j].hash
    {
      if |que| >= size {
        assert pre == que[1..];
        assert r[i] == que[i + 1];
        if j < |r| - 1 {
          assert r[j] == que[j + 1];
        }
      } else {
        assert pre == que;
        assert r[i] == que[i];
        if j < |r| - 1 {
          assert r[j] == que[j];
        }
      }
    }
  }

  /** The scan of the queue in `AddBlock`: true when every queued block has
      hash `h`, false at the first that does not. */
  method AllHashesAre(q: seq<Block>, h: seq<byte>) returns (ok: bool)
    ensures ok <==> forall k :: 0 <= k < |q| ==> q[k].hash == h
  {
    var i := 0;
    while i < |q|
      invariant 0 <= i <= |q|
      invariant forall k :: 0 <= k < i ==> q[k].hash == h
    {
      if q[i].hash != h {
        return false;
      }
      i := i + 1;
    }
    return true;
  }

  class BlockCache {
    var que: seq<Block>
    var size: int
    var lastHash: seq<byte>

    /** `InitBlockCache`: an empty queue with the given bound and cursor. */
    constructor(size: int, lastHash: seq<byte>)
      ensures que == [] && this.size == size && this.lastHash == lastHash
    {
      que := [];
      this.size := size;
      this.lastHash := lastHash;
    }

    /** `SetLastHash`: a new cursor empties the queue; the same one changes
        nothing. */
    method SetLastHash(h: seq<byte>)
      modifies this
      ensures size == old(size) && lastHash == h
      ensures h != old(lastHash) ==> que == []
      ensures h == old(lastHash) ==> que == old(que)
    {
      if h != lastHash {
        lastHash := h;
        que := [];
      }
    }

    /** `AddBlock` as written. None is a panic: building the proof-of-work
        target of a block that extends the cursor, or dropping from an empty
        queue with a size of 0 or below. */
    method AddBlock(env: Env, b: Block) returns (r: Option<bool>)
      modifies this
      ensures size == old(size) && lastHash == old(lastHash)
      ensures b.prevHash == lastHash && PowCheck(env, b).None? ==> r.None? && que == old(que)
      ensures !(b.prevHash == lastHash && PowCheck(env, b).None?) && !AdmitsAsWritten(env, old(que), lastHash, b) ==> r == Some(false) && que == old(que)
      ensures AdmitsAsWritten(env, old(que), lastHash, b) ==>
        match Enqueue(old(que), size, b)
        case None => r.None? && que == old(que)
        case Some(q) => r == Some(true) && que == q
    {
      if b.prevHash != lastHash {
        return Some(false);
      }
      var pow := CreateProofOfWork(b);
      if pow.None? {
        return None;
      }
      if !ValidateNonce(env, pow.value) {
        return Some(false);
      }
      var q := que;
      var same := AllHashesAre(q, b.hash);
      if !same {
        return Some(false);
      }
      if |q| >= size {
        if |q| == 0 {
          return None;
        }
        q := q[1..];
      }
      que := q + [b];
      return Some(true);
    }

    /** `PopBlock`: the front block, removed; None on an empty queue. */
    method PopBlock() returns (r: Option<Block>)
      modifies this
      ensures size == old(size) && lastHash == old(lastHash)
      ensures old(que) == [] ==> r.None? && que == []
      ensures old(que) != [] ==> r == Some(old(que)[0]) && que == old(que)[1..]
    {
      if |que| == 0 {
        return None;
      }
      r := Some(que[0]);
      que := que[1..];
    }
  }
}
