/** src/blockchain/pendingTXs.go: the pool of transactions waiting to be
    mined, keyed by a name the user chooses. */
module Pending {
  import opened Wrappers
  import opened Transaction

  type Pool = map<string, Transaction>

  /** What `GetTx` answers for a key: the stored transaction, or nothing (the
      source's nil) when the key is absent. */
  function Lookup(m: Pool, k: string): (r: Option<Transaction>)
    ensures r.Some? <==> k in m
    ensures r.Some? ==> r.value == m[k]
  {
    if k in m then Some(m[k]) else None
  }

  /** Adding under `k` makes `k` answer the new transaction, whatever it held
      before, and changes no other key's answer. */
  lemma LookupAfterAdd(m: Pool, k: string, tx: Transaction, other: string)
    ensures Lookup(m[k := tx], k) == Some(tx)
    ensures other != k ==> Lookup(m[k := tx], other) == Lookup(m, other)
  {
  }

  /** Deleting `k` makes `k` absent, changes no other key's answer, and on an
      absent key leaves the pool as it was. */
  lemma LookupAfterDelete(m: Pool, k: string, other: string)
    ensures Lookup(m - {k}, k) == None
    ensures other != k ==> Lookup(m - {k}, other) == Lookup(m, other)
    ensures k !in m ==> m - {k} == m
  {
  }

  class PendingTxs {
    var pending: Pool

    /** `InitPendingTXs`: an empty pool. */
    constructor()
      ensures pending == map[]
    {
      pending := map[];
    }

    /** `AddTransaction`: stores `tx` under `k`, replacing what was there. */
    method AddTransaction(k: string, tx: Transaction)
      modifies this
      ensures pending == old(pending)[k := tx]
      ensures Lookup(pending, k) == Some(tx)
      ensures forall other :: other != k ==> Lookup(pending, other) == Lookup(old(pending), other)
    {
      pending := pending[k := tx];
    }

    /** `GetTx`: the transaction stored under `k`, if any. */
    method GetTx(k: string) returns (r: Option<Transaction>)
      ensures r.Some? <==> k in pending
      ensures r.Some? ==> r.value == pending[k]
    {
      if k in pending {
        r := Some(pending[k]);
      } else {
        r := None;
      }
    }

    /** `DeleteTx`: removes `k` and nothing else; an absent key is a no-op. */
    method DeleteTx(k: string)
      modifies this
      ensures pending == old(pending) - {k}
      ensures k !in pending
      ensures forall other :: other != k ==> Lookup(pending, other) == Lookup(old(pending), other)
      ensures k !in old(pending) ==> pending == old(pending)
    {
      pending := pending - {k};
    }
  }
}
