/** The mutable chain of src/blockchain/blockchain.go: the block store (block
    hash to block) with its `lasthash` cell, the iterator walk over it,
    `InitBlockChain`, `ValidateBlock`, `AddBlock` and `AddBlockFromNetwork`. */
module Chain {
  import opened Numeric
  import opened Wrappers
  import opened Utils
  import opened Config
  import opened Transaction
  import opened Platform
  import opened Blocks
  import opened Ledger
  import opened Validation

  type Store = map<seq<byte>, Block>

  /** Blocks linked tip first: each block before the last names the next by
      its previous hash, and only the last has an empty previous hash. */
  predicate Linked(store: Store, c: seq<Block>) {
    && |c| >= 1
    && c[|c| - 1].prevHash == []
    && forall i :: 0 <= i < |c| - 1 ==>
         c[i].prevHash != [] && c[i].prevHash in store && store[c[i].prevHash] == c[i + 1]
  }

  /** The blocks the iterator yields from hash `h`: each read, then its
      previous hash followed, up to the first block whose previous hash is
      empty. None when a hash on the way is missing (the read panics) or when
      more than `fuel` links would be followed. */
  function ChainFrom(store: Store, h: seq<byte>, fuel: nat): (r: Option<seq<Block>>)
    ensures r.Some? ==> h in store && Linked(store, r.value) && r.value[0] == store[h]
    decreases fuel
  {
    if h !in store then None
    else if store[h].prevHash == [] then Some([store[h]])
    else if fuel == 0 then None
    else
      match ChainFrom(store, store[h].prevHash, fuel - 1)
      case None => None
      case Some(rest) => Some([store[h]] + rest)
  }

  function Prepend(pre: seq<Block>, o: Option<seq<Block>>): Option<seq<Block>> {
    match o
    case None => None
    case Some(c) => Some(pre + c)
  }

  /** More fuel does not change a walk that ends. */
  lemma {:induction false} ChainFromFuel(store: Store, h: seq<byte>, n: nat, m: nat)
    requires n <= m && ChainFrom(store, h, n).Some?
    ensures ChainFrom(store, h, m) == ChainFrom(store, h, n)
    decreases n
  {
    if store[h].prevHash != [] {
      ChainFromFuel(store, store[h].prevHash, n - 1, m - 1);
    }
  }

  /** Storing a block under a new key changes no walk that ended before. */
  lemma {:induction false} ChainFromExtend(store: Store, k: seq<byte>, b: Block, h: seq<byte>, n: nat)
    requires k !in store && ChainFrom(store, h, n).Some?
    ensures ChainFrom(store[k := b], h, n) == ChainFrom(store, h, n)
    decreases n
  {
    if store[h].prevHash != [] {
      ChainFromExtend(store, k, b, store[h].prevHash, n - 1);
    }
  }

  /** Linking a block with a new hash onto the tip of a chain that ends
      makes the walk from it that chain with the block in front. */
  lemma CommitExtends(store: Store, tip: seq<byte>, c: seq<Block>, b: Block)
    requires ChainFrom(store, tip, |store|) == Some(c)
    requires b.prevHash == tip && tip != [] && b.hash !in store
    ensures ChainFrom(store[b.hash := b], b.hash, |store[b.hash := b]|) == Some([b] + c)
  {
    var store' := store[b.hash := b];
    assert |store'| == |store| + 1 by {
      assert store'.Keys == store.Keys + {b.hash};
    }
    ChainFromExtend(store, b.hash, b, tip, |store|);
  }

  /** The chain as written accepts a network block whose hash is already a
      key: one linking onto the genesis block G and carrying G's own hash
      replaces G, and the walk from the tip then revisits it forever. */
  lemma {:induction false} SelfLinkNeverEnds(store: Store, h: seq<byte>, b: Block, n: nat)
    requires b.prevHash == h && h != [] && store[h := b][h] == b
    ensures ChainFrom(store[h := b], h, n).None?
    decreases n
  {
    if n > 0 {
      SelfLinkNeverEnds(store, h, b, n - 1);
    }
  }

  /** A block with no transactions and difficulty 0 whose hash and previous
      hash are both those of the stored genesis block `g`. */
  function Overwriter(g: Block): Block {
    Block(g.hash, g.hash, [], [], 0, 0, 1)
  }

  lemma NetworkBlockOverwrites(env: Env, g: Block, n: nat)
    requires g.prevHash == [] && g.hash != []
    ensures ValidateBlockSpec(env, Overwriter(g), true, Some(map[])) == Some(Verified)
    ensures Overwriter(g).hash in map[g.hash := g]
    ensures ChainFrom(map[g.hash := g], g.hash, n) == Some([g])
    ensures ChainFrom(map[g.hash := g][g.hash := Overwriter(g)], g.hash, n).None?
  {
    var b := Overwriter(g);
    NonPositiveDifficultyAcceptsAnyNonce(env, b);
    assert CheckTxs(env, map[], b.txs, 0, 0, {}) == Verified;
    SelfLinkNeverEnds(map[g.hash := g], g.hash, b, n);
  }

  /** The genesis branch of `ValidateBlock` once the proof of work is
      checked: the block's data, difficulty and single coinbase transaction
      paying the genesis address. None is the out-of-range panic on a
      coinbase without outputs. */
  method ValidateGenesis(env: Env, b: Block, powOk: bool) returns (r: Option<BlockStatus>)
    ensures r == GenesisVerdict(env, b, powOk)
  {
    if !powOk {
      return Some(WrongGenesis);
    }
    if b.data != env.genesisData || b.difficulty != InitialChainDifficulty || |b.txs| != 1 {
      return Some(WrongGenesis);
    }
    var tx := b.txs[0];
    if !env.isCoinbase(tx) {
      return Some(WrongGenesis);
    }
    if |tx.outputs| == 0 {
      return None;
    }
    if tx.outputs[0].address != env.genesisData {
      return Some(WrongGenesis);
    }
    return Some(Verified);
  }

  /** The mutable chain: the store, the `lasthash` cell, the known addresses
      of the wallets (in the order the map is iterated), and the cached tip
      fields. */
  class BlockChain {
    const env: Env
    var store: Store
    var lastHashCell: Option<seq<byte>>
    var knownAddresses: seq<KnownAddress>
    var chainDifficulty: int
    var lastHash: seq<byte>
    var blockHeight: int

    constructor(env: Env, store: Store, lastHashCell: Option<seq<byte>>, knownAddresses: seq<KnownAddress>,
                chainDifficulty: int, lastHash: seq<byte>, blockHeight: int)
      ensures this.env == env && this.store == store && this.lastHashCell == lastHashCell
      ensures this.knownAddresses == knownAddresses && this.chainDifficulty == chainDifficulty
      ensures this.lastHash == lastHash && this.blockHeight == blockHeight
    {
      this.env := env;
      this.store := store;
      this.lastHashCell := lastHashCell;
      this.knownAddresses := knownAddresses;
      this.chainDifficulty := chainDifficulty;
      this.lastHash := lastHash;
      this.blockHeight := blockHeight;
    }

    /** The block `lasthash` names, if it is stored. */
    function Tip(): Option<Block>
      reads this
    {
      if lastHashCell.Some? && lastHashCell.value in store then Some(store[lastHashCell.value]) else None
    }

    /** The walk from the tip; None when it panics or never ends (a walk
      following more links than the store has blocks revisits one). */
    function Walk(): (r: Option<seq<Block>>)
      reads this
      ensures r.Some? ==> Tip().Some? && Linked(store, r.value) && r.value[0] == Tip().value
    {
      if lastHashCell.None? then None else ChainFrom(store, lastHashCell.value, |store|)
    }

    /** The validator's view: empty without known addresses (no walk is
        made), otherwise built from the walk. */
    function CurrentView(): (r: Option<View>)
      reads this
      ensures r.Some? ==> ViewSound(r.value)
    {
      if knownAddresses == [] then Some(map[])
      else if Walk().None? then None
      else
        BuildViewSound(env, Walk().value, knownAddresses);
        Some(BuildView(env, Walk().value, knownAddresses))
    }

    /** The iterator loop: read the block, follow its previous hash, stop
        after the block whose previous hash is empty. */
    method ReadChain() returns (r: Option<seq<Block>>)
      ensures r == Walk()
    {
      if lastHashCell.None? {
        return None;
      }
      var blocks: seq<Block> := [];
      var h := lastHashCell.value;
      var fuel: nat := |store|;
      assert Walk() == Prepend([], ChainFrom(store, h, fuel)) by {
        if Walk().Some? {
          assert [] + Walk().value == Walk().value;
        }
      }
      while true
        invariant Walk() == Prepend(blocks, ChainFrom(store, h, fuel))
        decreases fuel
      {
        if h !in store {
          return None;
        }
        var b := store[h];
        if b.prevHash == [] {
          return Some(blocks + [b]);
        }
        if fuel == 0 {
          return None;
        }
        PrependAssoc(blocks, [b], ChainFrom(store, b.prevHash, fuel - 1));
        blocks := blocks + [b];
        h := b.prevHash;
        fuel := fuel - 1;
      }
    }

    /** `ValidateBlock`. */
    method ValidateBlock(b: Block) returns (r: Option<BlockStatus>)
      ensures r == ValidateBlockSpec(env, b, b.prevHash in store, CurrentView())
    {
      if b.prevHash == [] {
        var pow := CreateProofOfWork(b);
        if pow.None? {
          return None;
        }
        var powOk := ValidateNonce(env, pow.value);
        r := ValidateGenesis(env, b, powOk);
        return;
      }
      if b.prevHash !in store {
        return Some(PrevBlockNotFound);
      }
      var pow := CreateProofOfWork(b);
      if pow.None? {
        return None;
      }
      if !ValidateNonce(env, pow.value) {
        return Some(HashMismatch);
      }
      var view := LoadView();
      if view.None? {
        return None;
      }
      var status := CheckTransactions(env, view.value, b.txs);
      return Some(status);
    }

    /** The view `ValidateBlock` checks against: empty without known
        addresses, otherwise built from the walked chain. */
    method LoadView() returns (view: Option<View>)
      ensures view == CurrentView()
    {
      if knownAddresses == [] {
        return Some(map[]);
      }
      var blocks := ReadChain();
      if blocks.None? {
        return None;
      }
      var v := CollectView(env, blocks.value, knownAddresses);
      return Some(v);
    }

    /** `AddBlock`: mines a block holding `txList` and the miner's coinbase
        transaction on top of `lasthash`, stores it only if it is Verified,
        and returns the (possibly unchanged) tip. `mined` is the block mined.
        None is a panic: no stored tip, no minable block (no nonce qualifies
        or the target cannot be built), or a validator panic; it is returned
        exactly in those cases. */
    method AddBlock(minerAddr: Address, description: seq<byte>, txList: seq<Transaction>)
      returns (r: Option<Block>, ghost mined: Option<Block>)
      modifies this
      ensures knownAddresses == old(knownAddresses) && chainDifficulty == old(chainDifficulty)
      ensures old(Tip()).None? ==> r.None? && mined.None?
      ensures r.None? ==> store == old(store) && lastHashCell == old(lastHashCell)
      ensures r.Some? ==> mined.Some?
      ensures old(NextTemplate(minerAddr, description, txList)).Some? ==>
        (mined.Some? <==> Mineable(env, old(NextTemplate(minerAddr, description, txList)).value))
      ensures mined.Some? ==>
        && mined.value.prevHash == old(lastHashCell).value
        && mined.value.data == description
        && mined.value.txs == txList + [env.coinbaseTx(minerAddr)]
        && mined.value.difficulty == chainDifficulty
        && mined.value.height == old(Tip()).value.height + 1
        && PowValid(env, mined.value)
        && mined.value.hash == env.sha256(PowData(env, mined.value, mined.value.nonce))
      ensures mined.Some? ==>
        var verdict := ValidateBlockSpec(env, mined.value, mined.value.prevHash in old(store), old(CurrentView()));
        && (r.Some? <==> verdict.Some?)
        && (r.Some? && verdict == Some(Verified) ==> store == old(store)[mined.value.hash := mined.value] && lastHashCell == Some(mined.value.hash))
        && (r.Some? && verdict != Some(Verified) ==> store == old(store) && lastHashCell == old(lastHashCell))
      ensures r.Some? ==> r == Tip() && lastHash == r.value.hash && blockHeight == r.value.height
    {
      var m, verdict := MineOnTip(minerAddr, description, txList);
      mined := m;
      if m.None? || verdict.None? {
        return None, mined;
      }
      var tip := Record(m.value, verdict.value);
      r := Some(tip);
    }

    /** The part of `AddBlock` that changes the chain: commit the block when
        it is Verified, then cache the tip that `lasthash` names. */
    method Record(b: Block, verdict: BlockStatus) returns (tip: Block)
      requires Tip().Some?
      modifies this
      ensures knownAddresses == old(knownAddresses) && chainDifficulty == old(chainDifficulty)
      ensures verdict == Verified ==> store == old(store)[b.hash := b] && lastHashCell == Some(b.hash)
      ensures verdict != Verified ==> store == old(store) && lastHashCell == old(lastHashCell)
      ensures Tip() == Some(tip) && lastHash == tip.hash && blockHeight == tip.height
    {
      if verdict == Verified {
        Commit(b);
      }
      tip := store[lastHashCell.value];
      CacheTip(tip);
    }

    /** The block `AddBlock` mines, before its nonce and hash are set: the
        description, the transactions followed by the miner's coinbase, the
        tip's hash and the tip's height plus one. None without a tip. */
    function NextTemplate(minerAddr: Address, description: seq<byte>, txList: seq<Transaction>): (t: Option<Block>)
      reads this
      ensures t.Some? <==> Tip().Some?
      ensures t.Some? ==> t.value.prevHash == lastHashCell.value && t.value.height == Tip().value.height + 1
    {
      if Tip().None? then None
      else Some(Unsealed(description, txList + [env.coinbaseTx(minerAddr)],
                         lastHashCell.value, chainDifficulty, Tip().value.height + 1))
    }

    /** The part of `AddBlock` that changes nothing: read the tip's hash and
        height, mine the block on top of it, and validate it. `mined` is None
        on a missing tip or an unminable block, and the verdict is then None
        too. */
    method MineOnTip(minerAddr: Address, description: seq<byte>, txList: seq<Transaction>)
      returns (mined: Option<Block>, verdict: Option<BlockStatus>)
      ensures Tip().None? ==> mined.None?
      ensures NextTemplate(minerAddr, description, txList).Some? ==>
        (mined.Some? <==> Mineable(env, NextTemplate(minerAddr, description, txList).value))
      ensures mined.Some? ==>
        && Tip().Some?
        && mined.value.prevHash == lastHashCell.value
        && mined.value.data == description
        && mined.value.txs == txList + [env.coinbaseTx(minerAddr)]
        && mined.value.difficulty == chainDifficulty
        && mined.value.height == Tip().value.height + 1
        && PowValid(env, mined.value)
        && mined.value.hash == env.sha256(PowData(env, mined.value, mined.value.nonce))
        && verdict == ValidateBlockSpec(env, mined.value, mined.value.prevHash in store, CurrentView())
      ensures mined.None? ==> verdict.None?
    {
      if lastHashCell.None? || lastHashCell.value !in store {
        return None, None;
      }
      var prevHeight := store[lastHashCell.value].height;
      var prevHash := lastHashCell.value;
      var txs := txList + [env.coinbaseTx(minerAddr)];
      assert NextTemplate(minerAddr, description, txList)
          == Some(Unsealed(description, txs, prevHash, chainDifficulty, prevHeight + 1));
      mined := CreateBlock(env, description, txs, prevHash, chainDifficulty, prevHeight + 1);
      if mined.None? {
        return None, None;
      }
      verdict := ValidateBlock(mined.value);
    }

    /** `AddBlockFromNetwork`: stores a received block only when it links
        onto `lasthash` and is Verified; the hash it carries is not
        recomputed. None is a panic: no `lasthash`, or a validator panic. */
    method AddBlockFromNetwork(b: Block) returns (r: Option<bool>)
      modifies this
      ensures knownAddresses == old(knownAddresses) && chainDifficulty == old(chainDifficulty)
      ensures r != Some(true) ==>
        store == old(store) && lastHashCell == old(lastHashCell)
        && lastHash == old(lastHash) && blockHeight == old(blockHeight)
      ensures old(lastHashCell).None? ==> r.None?
      ensures old(lastHashCell).Some? && b.prevHash != old(lastHashCell).value ==> r == Some(false)
      ensures old(lastHashCell).Some? && b.prevHash == old(lastHashCell).value ==>
        var verdict := ValidateBlockSpec(env, b, b.prevHash in old(store), old(CurrentView()));
        && (verdict.None? ==> r.None?)
        && (verdict.Some? ==> r == Some(verdict == Some(Verified)))
      ensures r == Some(true) ==>
        store == old(store)[b.hash := b] && lastHashCell == Some(b.hash)
        && lastHash == b.hash && blockHeight == b.height
    {
      if lastHashCell.None? {
        return None;
      }
      if b.prevHash != lastHashCell.value {
        return Some(false);
      }
      var verdict := ValidateBlock(b);
      if verdict.None? {
        return None;
      }
      if verdict.value != Verified {
        return Some(false);
      }
      Commit(b);
      CacheTip(b);
      return Some(true);
    }

    /** The database update: store `b` under its hash and point `lasthash`
        at it. */
    method Commit(b: Block)
      modifies this
      ensures store == old(store)[b.hash := b] && lastHashCell == Some(b.hash)
      ensures knownAddresses == old(knownAddresses) && chainDifficulty == old(chainDifficulty)
      ensures lastHash == old(lastHash) && blockHeight == old(blockHeight)
    {
      store := store[b.hash := b];
      lastHashCell := Some(b.hash);
    }

    /** Cache `tip` in the `LastHash` and `BlockHeight` fields. */
    method CacheTip(tip: Block)
      modifies this
      ensures lastHash == tip.hash && blockHeight == tip.height
      ensures store == old(store) && lastHashCell == old(lastHashCell)
      ensures knownAddresses == old(knownAddresses) && chainDifficulty == old(chainDifficulty)
    {
      lastHash := tip.hash;
      blockHeight := tip.height;
    }
  }

  lemma PrependAssoc(a: seq<Block>, b: seq<Block>, o: Option<seq<Block>>)
    ensures Prepend(a, Prepend(b, o)) == Prepend(a + b, o)
  {
    if o.Some? {
      assert a + (b + o.value) == (a + b) + o.value;
    }
  }

  /** `InitBlockChain`: on an empty store, mines and stores the genesis
      block and points `lasthash` at it (the genesis verdict is only
      reported); then caches the tip's hash and height. None is a panic: no
      qualifying genesis nonce, or `lasthash` naming a missing block; it is
      returned exactly in those cases. */
  method InitBlockChain(env: Env, knownAddresses: seq<KnownAddress>, store: Store, lastHashCell: Option<seq<byte>>)
    returns (r: Option<BlockChain>)
    ensures r.Some? ==>
      && fresh(r.value)
      && r.value.env == env && r.value.knownAddresses == knownAddresses
      && r.value.chainDifficulty == InitialChainDifficulty
      && r.value.Tip().Some?
      && r.value.lastHash == r.value.Tip().value.hash && r.value.blockHeight == r.value.Tip().value.height
    ensures lastHashCell.None? ==> (r.Some? <==> Mineable(env, GenesisTemplate(env, InitialChainDifficulty)))
    ensures lastHashCell.Some? ==>
      (r.Some? <==> lastHashCell.value in store)
      && (r.Some? ==> r.value.store == store && r.value.lastHashCell == lastHashCell)
    ensures lastHashCell.None? && r.Some? ==>
      var g := r.value.Tip().value;
      && g.prevHash == [] && g.data == env.genesisData && g.height == 0 && g.difficulty == InitialChainDifficulty
      && g.txs == [GenesisTx(env)] && PowValid(env, g) && g.hash == env.sha256(PowData(env, g, g.nonce))
      && r.value.store == store[g.hash := g] && r.value.lastHashCell == Some(g.hash)
      && r.value.Walk() == Some([g])
  {
    var st, cell := store, lastHashCell;
    if cell.None? {
      var genesis := Genesis(env, InitialChainDifficulty);
      if genesis.None? {
        return None;
      }
      var g := genesis.value;
      st := st[g.hash := g];
      cell := Some(g.hash);
    }
    if cell.value !in st {
      return None;
    }
    var tip := st[cell.value];
    var bc := new BlockChain(env, st, cell, knownAddresses, InitialChainDifficulty, tip.hash, tip.height);
    return Some(bc);
  }
}
